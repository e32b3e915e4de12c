/** The loop of src/http/fetch.ts in its own form: a request object whose headers are edited in
    place, local variables that each turn updates, and one `while` loop, proved equal to Fetch.Run. */
module FetchLoop {
  import opened Basics
  import opened HeaderTable
  import opened Redirects
  import opened Urls
  import opened RedirectChain
  import opened Fetch

  class RequestObject {
    const url: Url
    const verb: string
    const headers: Headers
    var body: Body

    ghost predicate Valid()
      reads this, headers
    {
      headers.Valid()
    }

    function Value(): Request
      reads this, headers
    {
      Request(url, verb, headers.entriesList, body)
    }

    constructor (url: Url, verb: string, init: Headers, body: Body)
      requires init.Valid()
      ensures Valid() && fresh(headers) && Value() == Request(url, verb, init.entriesList, body)
    {
      this.url, this.verb, this.body := url, verb, body;
      headers := new Headers.Copy(init);
    }

    /** `_replace`: a copy for another URL; None where the source throws. */
    method Replace(to: Url, nextVerb: string, dropBody: bool) returns (next: RequestObject?)
      requires Valid()
      ensures next == null <==> HasCredentials(to) || (!dropBody && body == Stream(true))
      ensures next != null ==>
                fresh(next) && fresh(next.headers) && next.Valid() &&
                next.Value() == Request(to, nextVerb, headers.entriesList, if dropBody then NoBody else body)
    {
      if HasCredentials(to) { return null; }
      if !dropBody && body == Stream(true) { return null; }
      next := new RequestObject(to, nextVerb, headers, if dropBody then NoBody else body);
    }
  }

  method ApplyEdit(headers: Headers, e: Edit)
    requires headers.Valid() && Trim(e.name) != ""
    modifies headers
    ensures headers.Valid() && headers.entriesList == EditOne(old(headers.entriesList), e)
  {
    match e {
      case AppendEdit(name, value) => var _ := headers.Append(name, value);
      case SetEdit(name, value) => var _ := headers.Set(name, value);
      case DeleteEdit(name) => var _ := headers.Delete(name);
    }
  }

  /** What a hook does to the Headers object it is given. */
  method ApplyEdits(headers: Headers, edits: seq<Edit>)
    requires headers.Valid() && forall i :: 0 <= i < |edits| ==> Trim(edits[i].name) != ""
    modifies headers
    ensures headers.Valid() && headers.entriesList == EditList(old(headers.entriesList), edits)
  {
    var n := 0;
    while n < |edits|
      invariant n <= |edits| && headers.Valid()
      invariant headers.entriesList == EditList(old(headers.entriesList), edits[..n])
    {
      assert edits[..n + 1][..n] == edits[..n];
      ApplyEdit(headers, edits[n]);
      n := n + 1;
    }
    assert edits[..n] == edits;
  }

  predicate NamedEdits(t: Turn) {
    (forall i :: 0 <= i < |t.beforeEdits| ==> Trim(t.beforeEdits[i].name) != "") &&
    (forall i :: 0 <= i < |t.redirectEdits| ==> Trim(t.redirectEdits[i].name) != "")
  }

  method ShouldRetryRequest(s: State, response: Option<Response>, code: Option<string>, callback: Verdict, o: Options)
      returns (v: Verdict)
    ensures v == ShouldRetry(s, response, code, callback, o)
  {
    if s.attempt + 1 > o.limit + 1 { return No; }
    if s.request.verb !in o.retryVerbs { return No; }
    if response.Some? {
      if response.value.status !in o.retryStatuses { return No; }
    } else {
      if code.None? || code.value !in o.retryCodes { return No; }
    }
    if !o.asks { return Yes; }
    return callback;
  }

  method LoadCookiesInto(headers: Headers, reply: JarReply)
    requires headers.Valid()
    modifies headers
    ensures headers.Valid() && headers.entriesList == LoadCookies(old(headers.entriesList), reply)
  {
    CookieIsKey();
    DeleteKey(headers, "cookie");
    if reply.Cookies? && reply.text.Some? { var _ := headers.Set("cookie", reply.text.value); }
  }

  datatype Got = Ok(response: Response) | Bad(error: Error)

  /** How the try block ends: around the loop, with a response, or with an exception. */
  datatype Fate = Around | Final(response: Response) | Thrown(error: Error)

  ghost function AsStep(s: State, g: Got): Step { match g case Ok(r) => Have(s, r) case Bad(e) => Raised(s, e) }

  ghost function AsTried(s: State, f: Fate): Tried {
    match f case Around => Continue(s) case Final(r) => Done(s, r) case Thrown(e) => Caught(s, e)
  }

  /** The local variables of `fetchWithNativeClient`. */
  class FetchCall {
    var request: RequestObject
    var redirectChain: seq<RedirectEntry>
    var visitedRedirectTargets: set<Url>
    var referrerPolicy: Policy
    var attempt: nat
    var log: Log

    ghost predicate Valid()
      reads this, request, request.headers
    {
      request.Valid()
    }

    function View(): State
      reads this, request, request.headers
    {
      State(request.Value(), redirectChain, visitedRedirectTargets, referrerPolicy, attempt, log)
    }

    constructor (first: RequestObject)
      requires first.Valid()
      ensures Valid() && request == first && View() == Start(first.Value())
    {
      request := first;
      redirectChain, visitedRedirectTargets := [], {first.url};
      referrerPolicy, attempt := DEFAULT_REDIRECT_REFERRER_POLICY, 1;
      log := Log([], multiset{}, multiset{}, [], [], []);
    }

    method CancelResponseBody(r: Response)
      modifies this`log
      ensures log == old(log).(cancelled := old(log).cancelled + multiset{r.id})
    {
      log := log.(cancelled := log.cancelled + multiset{r.id});
    }

    method Receive(r: Response)
      modifies this`log
      ensures log == old(log).(got := old(log).got + multiset{r.id})
    {
      log := log.(got := log.got + multiset{r.id});
    }

    method RunAfterResponseHooks(response: Response, hooks: seq<AfterHook>) returns (g: Got)
      modifies this`log
      ensures AsStep(View(), g) == RunAfter(old(View()), response, hooks)
    {
      var current, n := response, 0;
      while n < |hooks|
        invariant n <= |hooks|
        invariant RunAfter(View(), current, hooks[n..]) == RunAfter(old(View()), response, hooks)
      {
        match hooks[n] {
          case AfterFails(e) =>
            CancelResponseBody(current);
            return Bad(e);
          case Keeps =>
          case Returns(result) =>
            if result.id != current.id {
              Receive(result);
              CancelResponseBody(current);
              current := result;
            }
        }
        n := n + 1;
      }
      return Ok(current);
    }

    method AskServer(t: Turn) returns (g: Got)
      modifies this`log, request`body
      ensures AsStep(View(), g) == Fetch.AskServer(old(View()), t)
    {
      match t.before {
        case BeforeFails(e) => return Bad(e);
        case ShortCircuit(r) =>
          Receive(r);
          return Ok(r);
        case Proceed => g := Dispatch(t.reply);
      }
    }

    method Dispatch(reply: Reply) returns (g: Got)
      modifies this`log, request`body
      ensures AsStep(View(), g) == DispatchNative(old(View()), reply)
    {
      if request.body == Stream(true) { return Bad(PLAIN); }
      if reply.Unsent? { return Bad(Error(reply.code, None)); }
      var sent := request.Value();
      log := log.(sent := log.sent + [Fetch.Dispatch(sent, |redirectChain|)]);
      if request.body.Stream? && (reply.Answer? || reply.started) { request.body := Stream(true); }
      if reply.Lost? { return Bad(Error(reply.code, None)); }
      Receive(reply.response);
      return Ok(reply.response);
    }

    method Exchange(t: Turn, o: Options) returns (g: Got)
      requires Valid() && NamedEdits(t)
      modifies this`log, request`body, request.headers
      ensures Valid() && AsStep(View(), g) == Fetch.Exchange(old(View()), t, o)
    {
      if t.aborted { return Bad(ABORTED); }
      if o.jar {
        LoadCookiesInto(request.headers, t.jar);
        if t.jar.JarFails? { return Bad(t.jar.error); }
      }
      ApplyEdits(request.headers, t.beforeEdits);
      g := AskServer(t);
    }

    /** The redirect branch. The policy variable changes before the beforeRedirect hooks run. */
    method FollowOrRefuse(r: Response, t: Turn, o: Options) returns (f: Fate)
      requires Valid() && IsRedirect(r) && NamedEdits(t)
      modifies this
      ensures Valid() && (request == old(request) || (fresh(request) && fresh(request.headers)))
      ensures AsTried(View(), f) == JudgeRedirect(old(View()), r, t, o)
    {
      if o.redirect.Manual? { return Final(r); }
      if o.redirect.Refuse? { return Thrown(Error(Some("ERR_REDIRECT"), Some(r))); }
      if |redirectChain| >= o.maxRedirects { return Thrown(Error(Some("ERR_TOO_MANY_REDIRECTS"), Some(r))); }
      if r.location.Invalid? { return Thrown(PLAIN); }
      var nextUrl := r.location.url;
      if nextUrl in visitedRedirectTargets { return Thrown(Error(Some("ERR_REDIRECT_LOOP"), Some(r))); }
      var (verb, bodyDropped) := RewriteMethod(request.verb, r.status);
      var next := request.Replace(nextUrl, verb, bodyDropped);
      if next == null {
        CancelResponseBody(r);
        return Thrown(PLAIN);
      }
      f := Follow(next, r, bodyDropped, t, o);
    }

    method PrepareHeaders(headers: Headers, r: Response, bodyDropped: bool, o: Options)
      requires headers.Valid() && r.location.Resolved?
      modifies headers, this`referrerPolicy
      ensures headers.Valid() && referrerPolicy == PolicyAfter(r.policyTokens, old(referrerPolicy))
      ensures var stripped := Strip(old(headers.entriesList), request.url, r.location.url, bodyDropped);
              var named := AfterPolicy(stripped, o.parse, referrerPolicy, r.location.url);
              headers.entriesList == if o.jar then Without(named, "cookie") else named
    {
      StripRedirectSensitiveHeaders(headers, request.url, r.location.url, bodyDropped);
      referrerPolicy := ApplyRedirectReferrerPolicy(headers, o.parse, r.policyTokens, r.location.url, referrerPolicy);
      if o.jar {
        CookieIsKey();
        DeleteKey(headers, "cookie");
      }
    }

    method Follow(next: RequestObject, r: Response, bodyDropped: bool, t: Turn, o: Options) returns (f: Fate)
      requires Valid() && next.Valid() && next != request && next.headers != request.headers
      requires r.location.Resolved? && NamedEdits(t)
      requires (next.verb, bodyDropped) == RewriteMethod(request.verb, r.status)
      requires next.Value() == Request(r.location.url, next.verb, request.headers.entriesList,
                                       if bodyDropped then NoBody else request.body)
      modifies this, next.headers
      ensures Valid() && request == if t.redirectHook.Some? then old(request) else next
      ensures AsTried(View(), f) ==
              if t.redirectHook.Some? then Caught(Abandon(old(View()), r), t.redirectHook.value)
              else Continue(FollowRedirect(old(View()), r, t, o))
    {
      DressNext(next, r, bodyDropped, t, o);
      log := log.(pending := log.pending + r.policyTokens);
      if t.redirectHook.Some? { return Thrown(t.redirectHook.value); }
      Advance(next, r);
      return Around;
    }

    /** The end of the redirect branch: release, chain entry, visited URL, next request. */
    method Advance(next: RequestObject, r: Response)
      requires r.location.Resolved?
      modifies this`log, this`redirectChain, this`visitedRedirectTargets, this`request
      ensures request == next && visitedRedirectTargets == old(visitedRedirectTargets) + {next.url}
      ensures redirectChain == old(redirectChain) +
                [RedirectEntry(old(request).url, r.status, r.location.text, next.url, next.verb)]
      ensures log == old(log).(cancelled := old(log).cancelled + multiset{r.id},
                               hops := old(log).hops + [Hop(r.status, next.url, old(log).pending)], pending := [])
    {
      CancelResponseBody(r);
      redirectChain := redirectChain + [RedirectEntry(request.url, r.status, r.location.text, next.url, next.verb)];
      visitedRedirectTargets := visitedRedirectTargets + {next.url};
      log := log.(hops := log.hops + [Hop(r.status, next.url, log.pending)], pending := []);
      request := next;
    }

    /** The headers of the next request, from the strip to the edits of the beforeRedirect hooks. */
    method DressNext(next: RequestObject, r: Response, bodyDropped: bool, t: Turn, o: Options)
      requires Valid() && next.Valid() && next.headers != request.headers && r.location.Resolved? && NamedEdits(t)
      requires (next.verb, bodyDropped) == RewriteMethod(request.verb, r.status)
      requires next.Value() == Request(r.location.url, next.verb, request.headers.entriesList,
                                       if bodyDropped then NoBody else request.body)
      modifies this`referrerPolicy, next.headers
      ensures next.Valid() && referrerPolicy == PolicyAfter(r.policyTokens, old(referrerPolicy))
      ensures var value := NextRequest(old(View()), r, o);
              next.Value() == value.(headers := EditList(value.headers, t.redirectEdits))
    {
      PrepareHeaders(next.headers, r, bodyDropped, o);
      ApplyEdits(next.headers, t.redirectEdits);
    }

    /** beforeRetry, release, backoff; None when the next attempt begins. */
    method RetryAfter(response: Option<Response>, calls: RetryCalls) returns (failure: Option<Error>)
      modifies this`log, this`attempt
      ensures BeginRetry(old(View()), response, calls) ==
              if failure.Some? then RetryFails(View(), failure.value) else Again(View())
    {
      log := log.(retries := log.retries + [attempt + 1]);
      if calls.hook.Some? { return calls.hook; }
      if response.Some? { CancelResponseBody(response.value); }
      if calls.backoff.Some? { return calls.backoff; }
      attempt := attempt + 1;
      return None;
    }

    method RetryOrFinish(r: Response, t: Turn, o: Options) returns (f: Fate)
      modifies this`log, this`attempt
      ensures AsTried(View(), f) == JudgeFinal(old(View()), r, t, o)
    {
      var retry := ShouldRetryRequest(View(), Some(r), None, t.inTry.verdict, o);
      match retry {
        case VerdictFails(e) => return Thrown(e);
        case Yes =>
          var failure := RetryAfter(Some(r), t.inTry);
          return if failure.Some? then Thrown(failure.value) else Around;
        case No =>
          if o.validateStatus.Some? && t.validate.Some? { return Thrown(t.validate.value); }
          return if StatusAllowed(r.status, o) then Final(r) else Thrown(Error(Some("ERR_HTTP_STATUS"), Some(r)));
      }
    }

    /** The try block. */
    method Attempt(t: Turn, o: Options) returns (f: Fate)
      requires Valid() && NamedEdits(t)
      modifies this, request, request.headers
      ensures Valid() && (request == old(request) || (fresh(request) && fresh(request.headers)))
      ensures AsTried(View(), f) == Try(old(View()), t, o)
    {
      var g := Exchange(t, o);
      if g.Bad? { return Thrown(g.error); }
      g := RunAfterResponseHooks(g.response, t.after);
      if g.Bad? { return Thrown(g.error); }
      if t.stats.Some? { return Thrown(t.stats.value); }
      if o.jar && t.persist.Some? { return Thrown(t.persist.value); }
      if IsRedirect(g.response) {
        f := FollowOrRefuse(g.response, t, o);
      } else {
        f := RetryOrFinish(g.response, t, o);
      }
    }

    /** The catch clause. */
    method Recover(e: Error, t: Turn, o: Options) returns (end: Option<Outcome>)
      modifies this`log, this`attempt
      ensures Catch(old(View()), e, t, o) == if end.Some? then end.value else Loop(View())
      ensures end.Some? ==> !end.value.Loop?
    {
      if t.catchStats.Some? { return Some(Threw(View(), None, t.catchStats.value)); }
      var retry := ShouldRetryRequest(View(), e.response, e.code, t.inCatch.verdict, o);
      if retry.VerdictFails? { return Some(Threw(View(), None, retry.error)); }
      if retry.Yes? {
        var failure := RetryAfter(e.response, t.inCatch);
        return if failure.Some? then Some(Threw(View(), None, failure.value)) else None;
      }
      var last := match t.last case Leaves => e case Exchanges(e1) => e1 case LastFails(e1) => e1;
      return Some(Threw(View(), Some(e), last));
    }
  }

  /** `fetchWithNativeClient` from its first request on: the loop ends, and computes Fetch.Run. */
  method FetchWithNativeClient(first: RequestObject, o: Options, turns: Turns) returns (end: Outcome)
    requires first.Valid() && forall n: nat :: NamedEdits(turns(n))
    modifies first, first.headers
    ensures end == Run(Start(old(first.Value())), o, turns, 0)
  {
    var call := new FetchCall(first);
    var n := 0;
    while true
      invariant call.Valid()
      invariant call.request == first || (fresh(call.request) && fresh(call.request.headers))
      invariant Run(call.View(), o, turns, n) == Run(Start(old(first.Value())), o, turns, 0)
      decreases Budget(call.View(), o)
    {
      TurnSpends(call.View(), turns(n), o);
      assert NamedEdits(turns(n));
      var f := call.Attempt(turns(n), o);
      match f {
        case Final(r) => return Returned(call.View(), r);
        case Thrown(e) =>
          var ended := call.Recover(e, turns(n), o);
          if ended.Some? { return ended.value; }
        case Around =>
      }
      n := n + 1;
    }
  }
}
