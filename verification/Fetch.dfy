/** src/http/fetch.ts: the redirect and retry loop, as one function of the loop state and of what
    the outside does in one turn (the signal, the cookie jar, the hooks, the server, the callbacks).

    A run is driven by an arbitrary sequence of turns. It always ends: every turn that goes round
    the loop spends a redirect or a retry. */
module Fetch {
  import opened Basics
  import opened HeaderTable
  import opened Redirects
  import opened Urls
  import opened RedirectChain

  /** Byte, form and blob bodies can be sent again; a stream only while it is unused. */
  datatype Body = NoBody | Replayable(content: Bytes) | Stream(used: bool)

  datatype Request = Request(url: Url, verb: string, headers: seq<Tuple>, body: Body)

  datatype Location = NoLocation | Invalid(text: string) | Resolved(text: string, url: Url)

  datatype Response = Response(id: nat, status: nat, location: Location, policyTokens: seq<string>)

  /** A normalised error. */
  datatype Error = Error(code: Option<string>, response: Option<Response>)

  datatype RedirectEntry = RedirectEntry(fromUrl: Url, status: nat, location: string, toUrl: Url, verb: string)

  datatype RedirectMode = Follow | Manual | Refuse

  datatype Options = Options(
    redirect: RedirectMode,
    maxRedirects: int,
    limit: int,
    retryVerbs: set<string>,
    retryStatuses: set<nat>,
    retryCodes: set<string>,
    asks: bool,                       // a shouldRetry callback is configured
    throwHttpErrors: bool,
    validateStatus: Option<nat -> bool>,
    jar: bool,
    parse: Parser
  )

  datatype JarReply = Cookies(text: Option<string>) | JarFails(error: Error)
  datatype BeforeRequest = Proceed | ShortCircuit(response: Response) | BeforeFails(error: Error)
  datatype Reply = Answer(response: Response) | Lost(code: Option<string>, started: bool) | Unsent(code: Option<string>)
  datatype AfterHook = Keeps | Returns(response: Response) | AfterFails(error: Error)
  datatype Verdict = Yes | No | VerdictFails(error: Error)
  datatype LastHook = Leaves | Exchanges(error: Error) | LastFails(error: Error)

  /** The callbacks around one retry decision; `Some` is a throw. */
  datatype RetryCalls = RetryCalls(verdict: Verdict, hook: Option<Error>, backoff: Option<Error>)

  datatype Turn = Turn(
    aborted: bool,
    jar: JarReply,
    before: BeforeRequest,
    beforeEdits: seq<Edit>,
    reply: Reply,
    after: seq<AfterHook>,
    stats: Option<Error>,
    persist: Option<Error>,
    redirectEdits: seq<Edit>,
    redirectHook: Option<Error>,
    inTry: RetryCalls,
    validate: Option<Error>,          // what validateStatus throws, if it does
    catchStats: Option<Error>,
    inCatch: RetryCalls,
    last: LastHook
  )

  /** One dispatch: the request, and the number of hops before it. */
  datatype Dispatch = Dispatch(request: Request, hop: nat)

  /** The history of a run. Responses are known by their identity. */
  datatype Log = Log(
    sent: seq<Dispatch>,
    got: multiset<nat>,
    cancelled: multiset<nat>,
    retries: seq<nat>,                // the attempt numbers beforeRetry was given
    hops: seq<Hop>,
    pending: seq<string>              // policy tokens applied since the last hop
  )

  datatype State = State(
    request: Request,
    chain: seq<RedirectEntry>,
    visited: set<Url>,
    policy: Policy,
    attempt: nat,
    log: Log
  )

  /** The rules of the Request constructor; None where it throws. */
  function CreateRequest(url: Url, verb: string, headers: seq<Tuple>, body: Body): Option<Request> {
    if HasCredentials(url) || (verb in ["GET", "HEAD"] && body != NoBody) then None
    else Some(Request(url, verb, headers, body))
  }

  function Start(request: Request): State {
    State(request, [], {request.url}, DEFAULT_REDIRECT_REFERRER_POLICY, 1, Log([], multiset{}, multiset{}, [], [], []))
  }

  function Obtain(s: State, r: Response): State { s.(log := s.log.(got := s.log.got + multiset{r.id})) }

  function Cancel(s: State, r: Response): State { s.(log := s.log.(cancelled := s.log.cancelled + multiset{r.id})) }

  function SetHeaders(s: State, headers: seq<Tuple>): State { s.(request := s.request.(headers := headers)) }

  // ----- getting a response -----

  datatype Step = Have(state: State, response: Response) | Raised(state: State, error: Error)

  const ABORTED := Error(Some("ERR_ABORTED"), None)
  const PLAIN := Error(None, None)

  function LoadCookies(headers: seq<Tuple>, reply: JarReply): seq<Tuple> {
    var bare := Without(headers, "cookie");
    if reply.Cookies? && reply.text.Some? then Replaced(bare, "cookie", reply.text.value) else bare
  }

  function Sent(s: State, started: bool): State {
    s.(log := s.log.(sent := s.log.sent + [Dispatch(s.request, |s.chain|)]),
       request := s.request.(body := if started && s.request.body.Stream? then Stream(true) else s.request.body))
  }

  function DispatchNative(s: State, reply: Reply): Step {
    if s.request.body == Stream(true) then Raised(s, PLAIN)
    else
      match reply
      case Unsent(code) => Raised(s, Error(code, None))
      case Lost(code, started) => Raised(Sent(s, started), Error(code, None))
      case Answer(r) => Have(Obtain(Sent(s, true), r), r)
  }

  function AskServer(s: State, t: Turn): Step {
    match t.before
    case BeforeFails(e) => Raised(s, e)
    case ShortCircuit(r) => Have(Obtain(s, r), r)
    case Proceed => DispatchNative(s, t.reply)
  }

  /** The state once the cookie jar has been asked. */
  function Loaded(s: State, t: Turn, o: Options): State {
    if o.jar then SetHeaders(s, LoadCookies(s.request.headers, t.jar)) else s
  }

  function Exchange(s: State, t: Turn, o: Options): Step {
    if t.aborted then Raised(s, ABORTED)
    else
      var s1 := Loaded(s, t, o);
      if o.jar && t.jar.JarFails? then Raised(s1, t.jar.error)
      else AskServer(SetHeaders(s1, EditList(s1.request.headers, t.beforeEdits)), t)
  }

  /** A hook that returns another response replaces the current one, which is released. */
  function RunAfter(s: State, current: Response, hooks: seq<AfterHook>): Step
    decreases |hooks|
  {
    if hooks == [] then Have(s, current)
    else
      match hooks[0]
      case AfterFails(e) => Raised(Cancel(s, current), e)
      case Keeps => RunAfter(s, current, hooks[1..])
      case Returns(r) =>
        if r.id == current.id then RunAfter(s, current, hooks[1..])
        else RunAfter(Cancel(Obtain(s, r), current), r, hooks[1..])
  }

  // ----- judging a response -----

  datatype Tried = Continue(state: State) | Done(state: State, response: Response) | Caught(state: State, error: Error)

  predicate IsRedirect(r: Response) { r.status in [301, 302, 303, 307, 308] && !r.location.NoLocation? }

  predicate StatusAllowed(status: nat, o: Options) {
    if o.validateStatus.Some? then o.validateStatus.value(status)
    else o.throwHttpErrors ==> 200 <= status < 300
  }

  /** The request of the next hop, before the beforeRedirect hooks see it. */
  function NextRequest(s: State, r: Response, o: Options): Request
    requires r.location.Resolved?
  {
    var (verb, dropped) := RewriteMethod(s.request.verb, r.status);
    var stripped := Strip(s.request.headers, s.request.url, r.location.url, dropped);
    var headers := AfterPolicy(stripped, o.parse, PolicyAfter(r.policyTokens, s.policy), r.location.url);
    Request(r.location.url, verb, if o.jar then Without(headers, "cookie") else headers,
            if dropped then NoBody else s.request.body)
  }

  /** `_replace` throws: the target has credentials, or a used stream would have to be sent again. */
  predicate CannotReplace(s: State, r: Response)
    requires r.location.Resolved?
  {
    || HasCredentials(r.location.url)
    || (!RewriteMethod(s.request.verb, r.status).1 && s.request.body == Stream(true))
  }

  function FollowRedirect(s: State, r: Response, t: Turn, o: Options): State
    requires r.location.Resolved?
  {
    var next := NextRequest(s, r, o);
    var to := r.location.url;
    Cancel(State(
      next.(headers := EditList(next.headers, t.redirectEdits)),
      s.chain + [RedirectEntry(s.request.url, r.status, r.location.text, to, next.verb)],
      s.visited + {to},
      PolicyAfter(r.policyTokens, s.policy),
      s.attempt,
      s.log.(hops := s.log.hops + [Hop(r.status, to, s.log.pending + r.policyTokens)], pending := [])), r)
  }

  /** A beforeRedirect hook throws: the redirect is not followed, but its policy is already in force. */
  function Abandon(s: State, r: Response): State {
    s.(policy := PolicyAfter(r.policyTokens, s.policy), log := s.log.(pending := s.log.pending + r.policyTokens))
  }

  function JudgeRedirect(s: State, r: Response, t: Turn, o: Options): Tried
    requires IsRedirect(r)
  {
    if o.redirect.Manual? then Done(s, r)
    else if o.redirect.Refuse? then Caught(s, Error(Some("ERR_REDIRECT"), Some(r)))
    else if |s.chain| >= o.maxRedirects then Caught(s, Error(Some("ERR_TOO_MANY_REDIRECTS"), Some(r)))
    else if r.location.Invalid? then Caught(s, PLAIN)
    else if r.location.url in s.visited then Caught(s, Error(Some("ERR_REDIRECT_LOOP"), Some(r)))
    else if CannotReplace(s, r) then Caught(Cancel(s, r), PLAIN)
    else if t.redirectHook.Some? then Caught(Abandon(s, r), t.redirectHook.value)
    else Continue(FollowRedirect(s, r, t, o))
  }

  /** `shouldRetryRequest` for the next attempt. */
  function ShouldRetry(s: State, response: Option<Response>, code: Option<string>, v: Verdict, o: Options): Verdict {
    if s.attempt + 1 > o.limit + 1 || s.request.verb !in o.retryVerbs then No
    else if (if response.Some? then response.value.status !in o.retryStatuses
             else code.None? || code.value !in o.retryCodes) then No
    else if o.asks then v else Yes
  }

  datatype Retry = Again(state: State) | RetryFails(state: State, error: Error)

  /** beforeRetry, release of the response, backoff, next attempt. */
  function BeginRetry(s: State, response: Option<Response>, calls: RetryCalls): Retry {
    var s1 := s.(log := s.log.(retries := s.log.retries + [s.attempt + 1]));
    if calls.hook.Some? then RetryFails(s1, calls.hook.value)
    else
      var s2 := if response.Some? then Cancel(s1, response.value) else s1;
      if calls.backoff.Some? then RetryFails(s2, calls.backoff.value)
      else Again(s2.(attempt := s.attempt + 1))
  }

  function JudgeFinal(s: State, r: Response, t: Turn, o: Options): Tried {
    match ShouldRetry(s, Some(r), None, t.inTry.verdict, o)
    case VerdictFails(e) => Caught(s, e)
    case Yes =>
      (match BeginRetry(s, Some(r), t.inTry)
       case Again(s1) => Continue(s1)
       case RetryFails(s1, e) => Caught(s1, e))
    case No =>
      if o.validateStatus.Some? && t.validate.Some? then Caught(s, t.validate.value)
      else if StatusAllowed(r.status, o) then Done(s, r)
      else Caught(s, Error(Some("ERR_HTTP_STATUS"), Some(r)))
  }

  function Judge(s: State, r: Response, t: Turn, o: Options): Tried {
    if t.stats.Some? then Caught(s, t.stats.value)
    else if o.jar && t.persist.Some? then Caught(s, t.persist.value)
    else if IsRedirect(r) then JudgeRedirect(s, r, t, o)
    else JudgeFinal(s, r, t, o)
  }

  function Receive(s: State, t: Turn, o: Options): Step {
    match Exchange(s, t, o)
    case Raised(s1, e) => Raised(s1, e)
    case Have(s1, r) => RunAfter(s1, r, t.after)
  }

  function Try(s: State, t: Turn, o: Options): Tried {
    match Receive(s, t, o)
    case Raised(s1, e) => Caught(s1, e)
    case Have(s1, r) => Judge(s1, r, t, o)
  }

  // ----- the catch clause and the loop -----

  /** `seen` is the error handed to beforeError; it is None when a callback of the catch clause throws. */
  datatype Outcome =
    | Loop(state: State)
    | Returned(state: State, response: Response)
    | Threw(state: State, seen: Option<Error>, error: Error)

  function Catch(s: State, e: Error, t: Turn, o: Options): Outcome {
    if t.catchStats.Some? then Threw(s, None, t.catchStats.value)
    else
      match ShouldRetry(s, e.response, e.code, t.inCatch.verdict, o)
      case VerdictFails(e1) => Threw(s, None, e1)
      case Yes =>
        (match BeginRetry(s, e.response, t.inCatch)
         case Again(s1) => Loop(s1)
         case RetryFails(s1, e1) => Threw(s1, None, e1))
      case No =>
        match t.last
        case Leaves => Threw(s, Some(e), e)
        case Exchanges(e1) => Threw(s, Some(e), e1)
        case LastFails(e1) => Threw(s, Some(e), e1)
  }

  function Iterate(s: State, t: Turn, o: Options): Outcome {
    match Try(s, t, o)
    case Continue(s1) => Loop(s1)
    case Done(s1, r) => Returned(s1, r)
    case Caught(s1, e) => Catch(s1, e, t, o)
  }

  // ----- what the stages leave alone -----

  /** The same body, or the same stream now used. */
  predicate Spent(before: Body, after: Body) { after == before || (before.Stream? && after == Stream(true)) }

  /** Same place in the loop: only headers, stream use, dispatches and response bookkeeping differ. */
  predicate Kept(s: State, z: State) {
    && z.chain == s.chain && z.visited == s.visited && z.attempt == s.attempt
    && z.log.hops == s.log.hops && z.request.url == s.request.url && z.request.verb == s.request.verb
    && Spent(s.request.body, z.request.body)
  }

  lemma AskKeeps(s: State, t: Turn)
    ensures Kept(s, AskServer(s, t).state) && AskServer(s, t).state.log.retries == s.log.retries
  {}

  lemma HeadersKeep(s: State, headers: seq<Tuple>)
    ensures Kept(s, SetHeaders(s, headers)) && SetHeaders(s, headers).log == s.log
  {}

  lemma ExchangeKeeps(s: State, t: Turn, o: Options)
    ensures Kept(s, Exchange(s, t, o).state) && Exchange(s, t, o).state.log.retries == s.log.retries
  {
    HeadersKeep(s, LoadCookies(s.request.headers, t.jar));
    var s1 := Loaded(s, t, o);
    HeadersKeep(s1, EditList(s1.request.headers, t.beforeEdits));
    AskKeeps(SetHeaders(s1, EditList(s1.request.headers, t.beforeEdits)), t);
  }

  lemma {:induction false} RunAfterKeeps(s: State, current: Response, hooks: seq<AfterHook>)
    ensures var z := RunAfter(s, current, hooks).state;
            Kept(s, z) && z.request == s.request && z.log.retries == s.log.retries && z.log.sent == s.log.sent
    decreases |hooks|
  {
    if hooks == [] {
    } else {
      match hooks[0]
      case AfterFails(_) =>
      case Keeps => RunAfterKeeps(s, current, hooks[1..]);
      case Returns(r) =>
        RunAfterKeeps(s, current, hooks[1..]);
        RunAfterKeeps(Cancel(Obtain(s, r), current), r, hooks[1..]);
    }
  }

  lemma ReceiveKeeps(s: State, t: Turn, o: Options)
    ensures Kept(s, Receive(s, t, o).state) && Receive(s, t, o).state.log.retries == s.log.retries
  {
    ExchangeKeeps(s, t, o);
    match Exchange(s, t, o)
    case Raised(_, _) =>
    case Have(s1, r) => RunAfterKeeps(s1, r, t.after);
  }

  // ----- the two ways round the loop -----

  predicate Retried(s: State, z: State, o: Options) {
    Kept(s.(attempt := s.attempt + 1), z) && s.attempt < o.limit + 1
  }

  predicate Followed(s: State, z: State, o: Options) {
    |z.log.hops| == |s.log.hops| + 1 &&
    var hop := z.log.hops[|s.log.hops|];
    var (verb, dropped) := RewriteMethod(s.request.verb, hop.status);
    && z.log.hops == s.log.hops + [hop]
    && |s.chain| < o.maxRedirects
    && hop.to !in s.visited && z.visited == s.visited + {hop.to} && !HasCredentials(hop.to)
    && |z.chain| == |s.chain| + 1 && z.chain[..|s.chain|] == s.chain
    && (var entry := z.chain[|s.chain|];
        entry.fromUrl == s.request.url && entry.toUrl == hop.to && entry.status == hop.status && entry.verb == verb)
    && z.attempt == s.attempt
    && z.request.url == hop.to && z.request.verb == verb
    && (if dropped then z.request.body == NoBody else Spent(s.request.body, z.request.body) && z.request.body != Stream(true))
  }

  lemma BeginRetryKeeps(s: State, response: Option<Response>, calls: RetryCalls)
    ensures match BeginRetry(s, response, calls)
            case Again(z) => Kept(s.(attempt := s.attempt + 1), z) && z.request == s.request && z.log.sent == s.log.sent
            case RetryFails(z, _) => Kept(s, z) && z.request == s.request && z.log.sent == s.log.sent
  {}

  lemma FollowGuards(s: State, r: Response, t: Turn, o: Options)
    requires IsRedirect(r) && JudgeRedirect(s, r, t, o).Continue?
    ensures r.location.Resolved? && |s.chain| < o.maxRedirects && r.location.url !in s.visited && !CannotReplace(s, r)
    ensures JudgeRedirect(s, r, t, o).state == FollowRedirect(s, r, t, o)
  {}

  lemma FollowGoesOn(s: State, r: Response, t: Turn, o: Options)
    requires r.location.Resolved? && |s.chain| < o.maxRedirects && r.location.url !in s.visited && !CannotReplace(s, r)
    ensures Followed(s, FollowRedirect(s, r, t, o), o)
    ensures FollowRedirect(s, r, t, o).log.sent == s.log.sent
    ensures FollowRedirect(s, r, t, o).log.retries == s.log.retries
  {
    var z := FollowRedirect(s, r, t, o);
    assert z.log.hops[|s.log.hops|] == Hop(r.status, r.location.url, s.log.pending + r.policyTokens);
    assert z.chain[..|s.chain|] == s.chain;
  }

  lemma JudgeMoves(s: State, r: Response, t: Turn, o: Options)
    ensures match Judge(s, r, t, o)
            case Continue(z) => Followed(s, z, o) || Retried(s, z, o)
            case Done(z, _) => z == s
            case Caught(z, _) => Kept(s, z)
    ensures Judge(s, r, t, o).state.log.sent == s.log.sent
  {
    BeginRetryKeeps(s, Some(r), t.inTry);
    if IsRedirect(r) && JudgeRedirect(s, r, t, o).Continue? {
      FollowGuards(s, r, t, o);
      FollowGoesOn(s, r, t, o);
    }
  }

  lemma CatchMoves(s: State, e: Error, t: Turn, o: Options)
    ensures Catch(s, e, t, o).Loop? ==> Retried(s, Catch(s, e, t, o).state, o)
    ensures Catch(s, e, t, o).Threw? ==> Kept(s, Catch(s, e, t, o).state)
    ensures !Catch(s, e, t, o).Returned?
    ensures Catch(s, e, t, o).state.log.sent == s.log.sent
  {
    BeginRetryKeeps(s, e.response, t.inCatch);
  }

  lemma KeptThenFollowed(s: State, m: State, z: State, o: Options)
    requires Kept(s, m) && Followed(m, z, o)
    ensures Followed(s, z, o)
  {}

  lemma KeptThenKept(s: State, m: State, z: State)
    requires Kept(s, m) && Kept(m, z)
    ensures Kept(s, z)
  {}

  lemma KeptThenRetried(s: State, m: State, z: State, o: Options)
    requires Kept(s, m) && Retried(m, z, o)
    ensures Retried(s, z, o)
  {}

  /** A turn either goes round by following one redirect or by one retry, or it leaves the place
      in the loop as it was and ends the run. */
  lemma TurnMoves(s: State, t: Turn, o: Options)
    ensures match Iterate(s, t, o)
            case Loop(z) => Followed(s, z, o) || Retried(s, z, o)
            case Returned(z, _) => Kept(s, z)
            case Threw(z, _, _) => Kept(s, z)
  {
    ReceiveKeeps(s, t, o);
    match Receive(s, t, o)
    case Raised(s1, e) => CaughtMoves(s, s1, e, t, o);
    case Have(s1, r) =>
      JudgeMoves(s1, r, t, o);
      match Judge(s1, r, t, o)
      case Continue(z) => if Followed(s1, z, o) { KeptThenFollowed(s, s1, z, o); } else { KeptThenRetried(s, s1, z, o); }
      case Done(_, _) =>
      case Caught(s2, e) =>
        KeptThenKept(s, s1, s2);
        CaughtMoves(s, s2, e, t, o);
  }

  lemma CaughtMoves(s: State, m: State, e: Error, t: Turn, o: Options)
    requires Kept(s, m)
    ensures match Catch(m, e, t, o)
            case Loop(z) => Retried(s, z, o)
            case Returned(_, _) => false
            case Threw(z, _, _) => Kept(s, z)
  {
    CatchMoves(m, e, t, o);
    var z := Catch(m, e, t, o).state;
    if Catch(m, e, t, o).Loop? { KeptThenRetried(s, m, z, o); } else { KeptThenKept(s, m, z); }
  }

  // ----- runs -----

  type Turns = nat -> Turn

  function Positive(n: int): nat { if n < 0 then 0 else n }

  /** What is left to spend: redirects and retries. */
  function Budget(s: State, o: Options): nat { Positive(o.maxRedirects - |s.chain|) + Positive(o.limit + 1 - s.attempt) }

  lemma TurnSpends(s: State, t: Turn, o: Options)
    ensures Iterate(s, t, o).Loop? ==> Budget(Iterate(s, t, o).state, o) == Budget(s, o) - 1
  {
    TurnMoves(s, t, o);
  }

  function Run(s: State, o: Options, turns: Turns, n: nat): (end: Outcome)
    ensures !end.Loop?
    decreases Budget(s, o)
  {
    TurnSpends(s, turns(n), o);
    match Iterate(s, turns(n), o)
    case Loop(z) => Run(z, o, turns, n + 1)
    case Returned(z, r) => Returned(z, r)
    case Threw(z, seen, e) => Threw(z, seen, e)
  }
}
