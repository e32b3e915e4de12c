/** What one turn of the fetch loop decides, as a table of its outcomes beside the code: which response
    is judged, what is dispatched, when a redirect is followed, a retry made, a response returned. Each
    outcome comes about exactly under the listed conditions. */
module FetchDecisions {
  import opened Basics
  import opened HeaderTable
  import opened Redirects
  import opened Urls
  import opened RedirectChain
  import opened Fetch
  import opened FetchTheorems
  import opened FetchHeaders

  // ----- which response is judged -----

  /** The response of the last hook that returned one. */
  function LastReturned(hooks: seq<AfterHook>): Option<Response> {
    if hooks == [] then None
    else
      var later := LastReturned(hooks[1..]);
      if later.Some? then later else if hooks[0].Returns? then Some(hooks[0].response) else None
  }

  predicate NoneFails(hooks: seq<AfterHook>) { forall i :: 0 <= i < |hooks| ==> !hooks[i].AfterFails? }

  /** The identities of the responses held one after the other, up to a hook that throws. */
  function Held(id: nat, hooks: seq<AfterHook>): (ids: seq<nat>)
    ensures ids != [] && ids[0] == id
    decreases |hooks|
  {
    if hooks == [] then [id]
    else
      match hooks[0]
      case AfterFails(_) => [id]
      case Keeps => Held(id, hooks[1..])
      case Returns(r) => if r.id == id then Held(id, hooks[1..]) else [id] + Held(r.id, hooks[1..])
  }

  /** The hooks yield the response of the last one that returned any, unless one of them throws. */
  lemma {:induction false} AfterHooksChoose(s: State, current: Response, hooks: seq<AfterHook>)
    ensures var x, last := RunAfter(s, current, hooks), LastReturned(hooks);
            && (x.Have? <==> NoneFails(hooks))
            && (x.Have? && last.Some? ==> x.response.id == last.value.id)
            && (x.Have? && last.None? ==> x.response == current)
    decreases |hooks|
  {
    if hooks == [] {
    } else {
      match hooks[0]
      case AfterFails(_) =>
      case Keeps => AfterHooksChoose(s, current, hooks[1..]);
      case Returns(r) =>
        if r.id == current.id {
          AfterHooksChoose(s, current, hooks[1..]);
        } else {
          AfterHooksChoose(Cancel(Obtain(s, r), current), r, hooks[1..]);
        }
      assert NoneFails(hooks) <==> !hooks[0].AfterFails? && NoneFails(hooks[1..]) by { NoneFailsSplits(hooks); }
    }
  }

  lemma NoneFailsSplits(hooks: seq<AfterHook>)
    requires hooks != []
    ensures NoneFails(hooks) <==> !hooks[0].AfterFails? && NoneFails(hooks[1..])
  {
    assert forall i :: 0 < i < |hooks| ==> hooks[i] == hooks[1..][i - 1];
  }

  lemma {:induction false} AfterHooksObtain(s: State, current: Response, hooks: seq<AfterHook>)
    ensures RunAfter(s, current, hooks).state.log.got == s.log.got + multiset(Held(current.id, hooks)[1..])
    decreases |hooks|
  {
    if hooks == [] {
    } else {
      match hooks[0]
      case AfterFails(_) =>
      case Keeps => AfterHooksObtain(s, current, hooks[1..]);
      case Returns(r) =>
        if r.id == current.id {
          AfterHooksObtain(s, current, hooks[1..]);
        } else {
          AfterHooksObtain(Cancel(Obtain(s, r), current), r, hooks[1..]);
          HeldSplits(current.id, Held(r.id, hooks[1..]));
        }
    }
  }

  /** Which of the responses held are cancelled when the hooks are over. */
  function Released(x: Step, ids: seq<nat>): seq<nat>
    requires ids != []
  {
    if x.Have? then ids[..|ids| - 1] else ids
  }

  lemma ReleasedSplits(x: Step, id: nat, ids: seq<nat>)
    requires ids != []
    ensures multiset(Released(x, [id] + ids)) == multiset{id} + multiset(Released(x, ids))
    ensures ([id] + ids)[|ids|] == ids[|ids| - 1]
  {
    assert Released(x, [id] + ids) == [id] + Released(x, ids);
  }

  predicate Releases(s: State, x: Step, ids: seq<nat>)
    requires ids != []
  {
    x.state.log.cancelled == s.log.cancelled + multiset(Released(x, ids)) && (x.Have? ==> x.response.id == ids[|ids| - 1])
  }

  lemma ReplacedReleases(s: State, current: Response, r: Response, x: Step, ids: seq<nat>)
    requires ids != [] && Releases(Cancel(Obtain(s, r), current), x, ids)
    ensures Releases(s, x, [current.id] + ids)
  {
    ReleasedSplits(x, current.id, ids);
  }

  /** Each response that is replaced is cancelled, and the one that stays is not; a throw cancels it too. */
  lemma {:induction false} AfterHooksRelease(s: State, current: Response, hooks: seq<AfterHook>)
    ensures Releases(s, RunAfter(s, current, hooks), Held(current.id, hooks))
    decreases |hooks|
  {
    if hooks == [] {
    } else {
      match hooks[0]
      case AfterFails(_) =>
      case Keeps => AfterHooksRelease(s, current, hooks[1..]);
      case Returns(r) =>
        if r.id == current.id {
          AfterHooksRelease(s, current, hooks[1..]);
        } else {
          var ids, x := Held(r.id, hooks[1..]), RunAfter(s, current, hooks);
          AfterHooksRelease(Cancel(Obtain(s, r), current), r, hooks[1..]);
          ReplacedReleases(s, current, r, x, ids);
        }
    }
  }

  lemma HeldSplits(id: nat, later: seq<nat>)
    requires later != []
    ensures ([id] + later)[1..] == later && multiset(later) == multiset{later[0]} + multiset(later[1..])
  {
    assert later == [later[0]] + later[1..];
  }

  /** The response the outside gives a turn: of a beforeRequest hook, or of the server. */
  function GivenTo(t: Turn): Option<Response> {
    if t.before.ShortCircuit? then Some(t.before.response)
    else if t.before.Proceed? && t.reply.Answer? then Some(t.reply.response) else None
  }

  /** The identity of the response a turn judges. */
  function ChosenId(t: Turn): Option<nat> {
    if LastReturned(t.after).Some? then Some(LastReturned(t.after).value.id)
    else if GivenTo(t).Some? then Some(GivenTo(t).value.id) else None
  }

  /** The turn gets as far as its dispatch. */
  predicate Asks(t: Turn, o: Options) { !t.aborted && !(o.jar && t.jar.JarFails?) && t.before.Proceed? }

  /** A request goes out: nobody stopped it, its stream is not used up, and sending began. */
  predicate Dispatches(s: State, t: Turn, o: Options) { Asks(t, o) && s.request.body != Stream(true) && !t.reply.Unsent? }

  predicate Gets(s: State, t: Turn, o: Options) {
    && !t.aborted && !(o.jar && t.jar.JarFails?)
    && (t.before.ShortCircuit? || (Dispatches(s, t, o) && t.reply.Answer?))
  }

  lemma ExchangeGets(s: State, t: Turn, o: Options)
    ensures Exchange(s, t, o).Have? <==> Gets(s, t, o)
    ensures Gets(s, t, o) ==> Some(Exchange(s, t, o).response) == GivenTo(t)
  {}

  /** A turn judges a response exactly when it gets one and no afterResponse hook throws; it is the one
      of the last hook that returned any, and otherwise the one it was given. */
  lemma ReceivesExactly(s: State, t: Turn, o: Options)
    ensures Receive(s, t, o).Have? <==> Gets(s, t, o) && NoneFails(t.after)
    ensures Receive(s, t, o).Have? ==> Some(Receive(s, t, o).response.id) == ChosenId(t)
    ensures Receive(s, t, o).Have? && LastReturned(t.after).None? ==> Some(Receive(s, t, o).response) == GivenTo(t)
  {
    ExchangeGets(s, t, o);
    var x := Exchange(s, t, o);
    if x.Have? { AfterHooksChoose(x.state, x.response, t.after); }
  }

  // ----- what is dispatched -----

  /** The cookies of a request come from the jar alone. */
  lemma JarDecidesCookie(headers: seq<Tuple>, reply: JarReply)
    ensures Values(LoadCookies(headers, reply), "cookie") ==
            if reply.Cookies? && reply.text.Some? then [reply.text.value] else []
  {
    CookieIsKey();
    LookupWithout(headers, "cookie", "cookie");
    if reply.Cookies? && reply.text.Some? { LookupReplaced(Without(headers, "cookie"), "cookie", reply.text.value, "cookie"); }
  }

  /** The headers a turn sends: with the cookies of the jar, if there is one, and the edits of the hooks. */
  function SentHeaders(s: State, t: Turn, o: Options): seq<Tuple> {
    EditList(if o.jar then LoadCookies(s.request.headers, t.jar) else s.request.headers, t.beforeEdits)
  }

  lemma ExchangeDispatches(s: State, t: Turn, o: Options)
    ensures Exchange(s, t, o).state.log.sent ==
            s.log.sent + if Dispatches(s, t, o) then [Dispatch(s.request.(headers := SentHeaders(s, t, o)), |s.chain|)] else []
  {}

  /** A turn sends at most one request, exactly when nobody stops it before; it is the current request
      with the headers above, at the current hop. */
  lemma TurnDispatches(s: State, t: Turn, o: Options)
    ensures Iterate(s, t, o).state.log.sent ==
            s.log.sent + if Dispatches(s, t, o) then [Dispatch(s.request.(headers := SentHeaders(s, t, o)), |s.chain|)] else []
  {
    ExchangeDispatches(s, t, o);
    TurnRequest(s, t, o);
    var x := Exchange(s, t, o);
    if x.Have? { RunAfterKeeps(x.state, x.response, t.after); }
  }

  /** With a jar, a request carries the cookies the jar gave for it, and no others. */
  lemma CookiesComeFromJar(s: State, t: Turn, o: Options)
    requires o.jar && FetchHeaders.Leaves(t.beforeEdits, "cookie") && Dispatches(s, t, o)
    ensures var sent := Iterate(s, t, o).state.log.sent;
            && |sent| == |s.log.sent| + 1
            && Values(sent[|s.log.sent|].request.headers, "cookie") ==
               if t.jar.text.Some? then [t.jar.text.value] else []
  {
    TurnDispatches(s, t, o);
    JarDecidesCookie(s.request.headers, t.jar);
    EditsLeave(LoadCookies(s.request.headers, t.jar), t.beforeEdits, "cookie");
  }

  /** An aborted turn sends nothing and asks nobody; its error says so. */
  lemma AbortedTurnStops(s: State, t: Turn, o: Options)
    requires t.aborted
    ensures Try(s, t, o) == Caught(s, Error(Some("ERR_ABORTED"), None))
  {}

  /** What stops a turn before it has a response, and the error it fails with. */
  lemma StopsAreNamed(s: State, t: Turn, o: Options)
    ensures !t.aborted && o.jar && t.jar.JarFails? ==> Exchange(s, t, o).Raised? && Exchange(s, t, o).error == t.jar.error
    ensures !t.aborted && !(o.jar && t.jar.JarFails?) && t.before.BeforeFails? ==>
              Exchange(s, t, o).Raised? && Exchange(s, t, o).error == t.before.error
    ensures Asks(t, o) && s.request.body != Stream(true) && !t.reply.Answer? ==>
              Exchange(s, t, o).Raised? && Exchange(s, t, o).error == Error(t.reply.code, None)
  {}

  // ----- a stream is sent once -----

  /** The dispatch of the turn began to read the body. */
  predicate BeginsBody(s: State, t: Turn, o: Options) {
    Dispatches(s, t, o) && (t.reply.Answer? || (t.reply.Lost? && t.reply.started))
  }

  /** A request that has no stream left to send. */
  predicate StreamSpent(body: Body) { body == Stream(true) || body == NoBody }

  lemma ExchangeUsesStream(s: State, t: Turn, o: Options)
    requires s.request.body.Stream? && BeginsBody(s, t, o)
    ensures Exchange(s, t, o).state.request.body == Stream(true)
  {}

  lemma SpentStaysSpent(s: State, z: State, o: Options)
    requires StreamSpent(s.request.body) && (Followed(s, z, o) || Retried(s, z, o))
    ensures StreamSpent(z.request.body)
  {}

  lemma TurnKeepsSpent(s: State, t: Turn, o: Options)
    requires StreamSpent(s.request.body) && Iterate(s, t, o).Loop?
    ensures StreamSpent(Iterate(s, t, o).state.request.body)
  {
    TurnMoves(s, t, o);
    SpentStaysSpent(s, Iterate(s, t, o).state, o);
  }

  /** A turn that began to read a stream leaves none to send. */
  lemma TurnUsesStream(s: State, t: Turn, o: Options)
    requires s.request.body.Stream? && BeginsBody(s, t, o) && Iterate(s, t, o).Loop?
    ensures StreamSpent(Iterate(s, t, o).state.request.body)
  {
    ExchangeUsesStream(s, t, o);
    TurnRequest(s, t, o);
    var x, m := Exchange(s, t, o), Receive(s, t, o);
    if x.Have? { RunAfterKeeps(x.state, x.response, t.after); }
    assert m.state.request.body == Stream(true);
    if FollowsResponse(s, Iterate(s, t, o).state, t, o) { NextBody(m.state, m.response, t, o); }
  }

  lemma NextBody(s: State, r: Response, t: Turn, o: Options)
    requires r.location.Resolved?
    ensures FollowRedirect(s, r, t, o).request.body == NoBody || FollowRedirect(s, r, t, o).request.body == s.request.body
  {}

  ghost predicate SendsNoStream(sent: seq<Dispatch>, from: nat) {
    forall i :: from <= i < |sent| ==> sent[i].request.body == NoBody
  }

  lemma {:induction false} SpentRunSendsNoStream(s: State, o: Options, turns: Turns, n: nat, from: nat)
    requires StreamSpent(s.request.body) && from <= |s.log.sent| && SendsNoStream(s.log.sent, from)
    ensures SendsNoStream(Run(s, o, turns, n).state.log.sent, from)
    decreases Budget(s, o)
  {
    TurnSpends(s, turns(n), o);
    TurnDispatches(s, turns(n), o);
    if !Iterate(s, turns(n), o).Loop? {
    } else {
      TurnKeepsSpent(s, turns(n), o);
      SpentRunSendsNoStream(Iterate(s, turns(n), o).state, o, turns, n + 1, from);
    }
  }

  /** Once a turn began to read a stream, no later request of the run carries one: a stream is never sent
      twice, by a redirect or by a retry. */
  lemma StreamIsSentOnce(s: State, o: Options, turns: Turns, n: nat)
    requires s.request.body.Stream? && BeginsBody(s, turns(n), o)
    ensures SendsNoStream(Run(s, o, turns, n).state.log.sent, |s.log.sent| + 1)
  {
    var z := Iterate(s, turns(n), o);
    TurnSpends(s, turns(n), o);
    TurnDispatches(s, turns(n), o);
    if z.Loop? {
      TurnUsesStream(s, turns(n), o);
      SpentRunSendsNoStream(z.state, o, turns, n + 1, |s.log.sent| + 1);
    }
  }

  // ----- redirects -----

  /** Neither onStats nor the cookie jar throws on the response. */
  predicate Calm(t: Turn, o: Options) { t.stats.None? && !(o.jar && t.persist.Some?) }

  predicate Redirecting(r: Response) {
    (r.status == 301 || r.status == 302 || r.status == 303 || r.status == 307 || r.status == 308) && !r.location.NoLocation?
  }

  predicate MayFollow(s: State, r: Response, o: Options) {
    && o.redirect.Follow? && |s.chain| < o.maxRedirects
    && r.location.Resolved? && r.location.url !in s.visited && !HasCredentials(r.location.url)
    && (s.request.body == Stream(true) ==> DropsBody(s.request.verb, r.status))
  }

  /** The turn follows the redirect of the response it judges. */
  predicate FollowsRedirect(s: State, t: Turn, o: Options) {
    var x := Receive(s, t, o);
    x.Have? && Calm(t, o) && Redirecting(x.response) && MayFollow(x.state, x.response, o) && t.redirectHook.None?
  }

  lemma JudgeFollows(s: State, r: Response, t: Turn, o: Options)
    ensures var x := Judge(s, r, t, o);
            && (x.Continue? && |x.state.chain| == |s.chain| + 1 <==>
                Calm(t, o) && Redirecting(r) && MayFollow(s, r, o) && t.redirectHook.None?)
            && (x.Continue? && |x.state.chain| == |s.chain| + 1 ==> x.state == FollowRedirect(s, r, t, o))
  {
    if Redirecting(r) {
      RedirectFollows(s, r, t, o);
    } else {
      JudgeMoves(s, r, t, o);
      FinalKeepsChain(s, r, t, o);
    }
  }

  lemma DropIsRewritten(verb: string, status: nat)
    ensures RewriteMethod(verb, status).1 <==> DropsBody(verb, status)
  {}

  lemma ReplaceGuard(s: State, r: Response)
    requires r.location.Resolved?
    ensures CannotReplace(s, r) <==>
            HasCredentials(r.location.url) || (s.request.body == Stream(true) && !DropsBody(s.request.verb, r.status))
  {
    DropIsRewritten(s.request.verb, r.status);
  }

  lemma RedirectGoesOn(s: State, r: Response, t: Turn, o: Options)
    requires IsRedirect(r)
    ensures JudgeRedirect(s, r, t, o).Continue? <==>
            && o.redirect.Follow? && |s.chain| < o.maxRedirects && r.location.Resolved? && r.location.url !in s.visited
            && !CannotReplace(s, r) && t.redirectHook.None?
    ensures JudgeRedirect(s, r, t, o).Continue? ==> JudgeRedirect(s, r, t, o).state == FollowRedirect(s, r, t, o)
  {}

  lemma RedirectFollows(s: State, r: Response, t: Turn, o: Options)
    requires IsRedirect(r)
    ensures var x := JudgeRedirect(s, r, t, o);
            && (x.Continue? <==> MayFollow(s, r, o) && t.redirectHook.None?)
            && (x.Continue? ==> x.state == FollowRedirect(s, r, t, o) && |x.state.chain| == |s.chain| + 1)
  {
    RedirectGoesOn(s, r, t, o);
    if r.location.Resolved? { ReplaceGuard(s, r); }
    if JudgeRedirect(s, r, t, o).Continue? { FollowAddsEntry(s, r, t, o); }
  }

  lemma FollowAddsEntry(s: State, r: Response, t: Turn, o: Options)
    requires r.location.Resolved?
    ensures |FollowRedirect(s, r, t, o).chain| == |s.chain| + 1
  {}

  lemma FinalKeepsChain(s: State, r: Response, t: Turn, o: Options)
    ensures JudgeFinal(s, r, t, o).state.chain == s.chain
  {}

  /** A redirect is followed exactly under these conditions. The next request then goes to its target,
      and the hop records its status, its target and the policy tokens of the response. */
  lemma FollowsExactly(s: State, t: Turn, o: Options)
    ensures var z := Iterate(s, t, o); z.Loop? && |z.state.chain| == |s.chain| + 1 <==> FollowsRedirect(s, t, o)
    ensures FollowsRedirect(s, t, o) ==>
              var x, z := Receive(s, t, o), Iterate(s, t, o).state;
              && z.request.url == x.response.location.url
              && z.request.headers == EditList(NextRequest(x.state, x.response, o).headers, t.redirectEdits)
              && z.visited == s.visited + {x.response.location.url}
              && z.policy == PolicyAfter(x.response.policyTokens, x.state.policy)
              && z.chain[|s.chain|].location == x.response.location.text
              && z.log.hops == s.log.hops + [Hop(x.response.status, x.response.location.url,
                                                 x.state.log.pending + x.response.policyTokens)]
  {
    ReceiveKeeps(s, t, o);
    var x := Receive(s, t, o);
    if x.Have? { JudgeFollows(x.state, x.response, t, o); }
    var y := Try(s, t, o);
    if y.Caught? {
      TryKeeps(s, t, o);
      CatchMoves(y.state, y.error, t, o);
    }
  }

  /** The headers a redirected request is made with, before the beforeRedirect hooks edit them: those of
      the request, without the ones this redirect strips and, when there is a jar, without cookies. */
  lemma NextHeadersAre(s: State, r: Response, o: Options, key: string)
    requires r.location.Resolved? && key != "referer"
    ensures Values(NextRequest(s, r, o).headers, key) ==
            if (o.jar && key == "cookie") || Strips(key, s.request.url, r.location.url, DropsBody(s.request.verb, r.status)) then []
            else Values(s.request.headers, key)
  {
    var to, dropped := r.location.url, RewriteMethod(s.request.verb, r.status).1;
    var stripped := Strip(s.request.headers, s.request.url, to, dropped);
    var policy := PolicyAfter(r.policyTokens, s.policy);
    StripRemovesExactly(s.request.headers, s.request.url, to, dropped, key);
    PolicyTouchesOnlyReferer(stripped, o.parse, policy, to, key);
    LookupWithout(AfterPolicy(stripped, o.parse, policy, to), "cookie", key);
  }

  lemma TryKeeps(s: State, t: Turn, o: Options)
    ensures Try(s, t, o).Caught? ==> |Try(s, t, o).state.chain| == |s.chain|
  {
    ReceiveKeeps(s, t, o);
    var x := Receive(s, t, o);
    if x.Have? { JudgeMoves(x.state, x.response, t, o); }
  }

  /** A redirect that a beforeRedirect hook stops: its error is thrown, and the policy of the response counts
      all the same. */
  lemma StoppedRedirectCounts(s: State, r: Response, t: Turn, o: Options)
    requires Calm(t, o) && Redirecting(r) && MayFollow(s, r, o) && t.redirectHook.Some?
    ensures var x := Judge(s, r, t, o);
            && x.Caught? && x.error == t.redirectHook.value && x.state.request == s.request && x.state.chain == s.chain
            && x.state.policy == PolicyAfter(r.policyTokens, s.policy)
            && x.state.log.pending == s.log.pending + r.policyTokens
  {}

  /** A redirect that is not followed: handed to the caller, or refused with the error that names why,
      which carries the response. */
  lemma RefusalsAreNamed(s: State, r: Response, t: Turn, o: Options)
    requires Calm(t, o) && Redirecting(r)
    ensures var x := Judge(s, r, t, o);
            && (o.redirect.Manual? ==> x == Done(s, r))
            && (o.redirect.Refuse? ==> x == Caught(s, Error(Some("ERR_REDIRECT"), Some(r))))
            && (o.redirect.Follow? && |s.chain| >= o.maxRedirects ==>
                  x == Caught(s, Error(Some("ERR_TOO_MANY_REDIRECTS"), Some(r))))
            && (o.redirect.Follow? && |s.chain| < o.maxRedirects && r.location.Resolved? && r.location.url in s.visited ==>
                  x == Caught(s, Error(Some("ERR_REDIRECT_LOOP"), Some(r))))
  {}

  // ----- retries -----

  /** The retry options allow another attempt, before a callback is asked: for a response its status
      counts, for an error without one its code. */
  predicate Retryable(s: State, response: Option<Response>, code: Option<string>, o: Options) {
    && s.attempt <= o.limit && s.request.verb in o.retryVerbs
    && (response.Some? ==> response.value.status in o.retryStatuses)
    && (response.None? ==> code.Some? && code.value in o.retryCodes)
  }

  predicate MayRetry(s: State, response: Option<Response>, code: Option<string>, v: Verdict, o: Options) {
    Retryable(s, response, code, o) && (o.asks ==> v.Yes?)
  }

  predicate CallbackFails(s: State, response: Option<Response>, code: Option<string>, v: Verdict, o: Options) {
    Retryable(s, response, code, o) && o.asks && v.VerdictFails?
  }

  lemma DecisionIsExact(s: State, response: Option<Response>, code: Option<string>, v: Verdict, o: Options)
    ensures ShouldRetry(s, response, code, v, o).Yes? <==> MayRetry(s, response, code, v, o)
    ensures ShouldRetry(s, response, code, v, o).VerdictFails? <==> CallbackFails(s, response, code, v, o)
  {}

  /** The try block retries the response it judges. */
  predicate RetriesResponse(s: State, t: Turn, o: Options) {
    var x := Receive(s, t, o);
    && x.Have? && Calm(t, o) && !Redirecting(x.response)
    && MayRetry(x.state, Some(x.response), None, t.inTry.verdict, o) && t.inTry.hook.None? && t.inTry.backoff.None?
  }

  /** The catch clause retries after the error. */
  predicate RetriesError(s: State, t: Turn, o: Options) {
    var y := Try(s, t, o);
    && y.Caught? && t.catchStats.None?
    && MayRetry(y.state, y.error.response, y.error.code, t.inCatch.verdict, o)
    && t.inCatch.hook.None? && t.inCatch.backoff.None?
  }

  lemma JudgeRetries(s: State, r: Response, t: Turn, o: Options)
    ensures var x := Judge(s, r, t, o);
            x.Continue? && x.state.attempt == s.attempt + 1 <==>
            Calm(t, o) && !Redirecting(r) && MayRetry(s, Some(r), None, t.inTry.verdict, o)
            && t.inTry.hook.None? && t.inTry.backoff.None?
  {
    DecisionIsExact(s, Some(r), None, t.inTry.verdict, o);
    JudgeMoves(s, r, t, o);
  }

  lemma CatchRetries(s: State, e: Error, t: Turn, o: Options)
    ensures Catch(s, e, t, o).Loop? <==>
            t.catchStats.None? && MayRetry(s, e.response, e.code, t.inCatch.verdict, o)
            && t.inCatch.hook.None? && t.inCatch.backoff.None?
  {
    DecisionIsExact(s, e.response, e.code, t.inCatch.verdict, o);
  }

  /** Another attempt begins exactly when the method may be retried, an attempt is left, the status of
      the judged response or the code of the error is retryable, the callback agrees, and no hook and no
      backoff throws. */
  lemma RetriesExactly(s: State, t: Turn, o: Options)
    ensures var z := Iterate(s, t, o);
            z.Loop? && z.state.attempt == s.attempt + 1 <==> RetriesResponse(s, t, o) || RetriesError(s, t, o)
  {
    ReceiveKeeps(s, t, o);
    TryTells(s, t, o);
    var x := Receive(s, t, o);
    if x.Have? { JudgeRetries(x.state, x.response, t, o); }
    var y := Try(s, t, o);
    if y.Caught? {
      CatchRetries(y.state, y.error, t, o);
      CatchTells(y.state, y.error, t, o);
    }
  }

  /** Some request on the way had a method that may be retried. */
  ghost predicate HadRetryableVerb(first: Request, hops: seq<Hop>, o: Options) {
    exists k: nat :: k <= |hops| && VerbAfter(first.verb, hops[..k]) in o.retryVerbs
  }

  ghost predicate VerbsOk(s: State, first: Request, o: Options) { s.attempt > 1 ==> HadRetryableVerb(first, s.log.hops, o) }

  lemma RetryHadVerb(s: State, t: Turn, o: Options)
    requires Iterate(s, t, o).Loop? && Iterate(s, t, o).state.attempt == s.attempt + 1
    ensures s.request.verb in o.retryVerbs
  {
    RetriesExactly(s, t, o);
    ReceiveKeeps(s, t, o);
    TryVerb(s, t, o);
  }

  lemma TryVerb(s: State, t: Turn, o: Options)
    ensures Try(s, t, o).Caught? ==> Try(s, t, o).state.request.verb == s.request.verb
  {
    ReceiveKeeps(s, t, o);
    var x := Receive(s, t, o);
    if x.Have? { JudgeMoves(x.state, x.response, t, o); }
  }

  lemma VerbStays(first: Request, hops: seq<Hop>, more: seq<Hop>, o: Options)
    requires HadRetryableVerb(first, hops, o) && hops <= more
    ensures HadRetryableVerb(first, more, o)
  {
    var k: nat :| k <= |hops| && VerbAfter(first.verb, hops[..k]) in o.retryVerbs;
    assert more[..k] == hops[..k];
  }

  lemma TurnKeepsVerbs(s: State, first: Request, t: Turn, o: Options)
    requires ChainOk(s, first, o) && VerbsOk(s, first, o)
    ensures VerbsOk(Iterate(s, t, o).state, first, o)
  {
    var z := Iterate(s, t, o);
    TurnMoves(s, t, o);
    TurnExtendsHops(s, t, o);
    if z.Loop? && z.state.attempt == s.attempt + 1 {
      RetryHadVerb(s, t, o);
      assert s.log.hops[..|s.log.hops|] == s.log.hops;
      VerbStays(first, s.log.hops, z.state.log.hops, o);
    } else if s.attempt > 1 {
      VerbStays(first, s.log.hops, z.state.log.hops, o);
    }
  }

  lemma {:induction false} RunKeepsVerbs(s: State, first: Request, o: Options, turns: Turns, n: nat)
    requires ChainOk(s, first, o) && VerbsOk(s, first, o)
    ensures VerbsOk(Run(s, o, turns, n).state, first, o)
    decreases Budget(s, o)
  {
    TurnSpends(s, turns(n), o);
    TurnKeepsChain(s, first, turns(n), o);
    TurnKeepsVerbs(s, first, turns(n), o);
    if !Iterate(s, turns(n), o).Loop? {
    } else {
      RunKeepsVerbs(Iterate(s, turns(n), o).state, first, o, turns, n + 1);
    }
  }

  /** A run makes a retry only if the first method, or a method a redirect led to, may be retried. So a
      POST with the default options is retried only after a redirect has turned it into a GET. */
  lemma RetriesNeedAllowedVerb(first: Request, o: Options, turns: Turns)
    ensures var z := Run(Start(first), o, turns, 0).state;
            z.attempt > 1 ==>
              first.verb in o.retryVerbs || ("GET" in o.retryVerbs && LosesBody(first.verb, z.log.hops))
  {
    StartOk(first, o);
    RunKeepsVerbs(Start(first), first, o, turns, 0);
    var z := Run(Start(first), o, turns, 0).state;
    if z.attempt > 1 {
      var k: nat :| k <= |z.log.hops| && VerbAfter(first.verb, z.log.hops[..k]) in o.retryVerbs;
      MethodAlongChain(first.verb, z.log.hops[..k]);
      LossStays(first.verb, z.log.hops, k);
    }
  }

  lemma LossStays(verb: string, hops: seq<Hop>, k: nat)
    requires k <= |hops|
    ensures (exists i :: 0 <= i < |hops[..k]| && DropsBody(verb, hops[..k][i].status)) ==> LosesBody(verb, hops)
  {
    if i :| 0 <= i < |hops[..k]| && DropsBody(verb, hops[..k][i].status) {
      assert hops[i] == hops[..k][i];
    }
  }

  // ----- returns and throws -----

  predicate Acceptable(status: nat, o: Options) {
    && (o.validateStatus.Some? ==> o.validateStatus.value(status))
    && (o.validateStatus.None? && o.throwHttpErrors ==> 200 <= status <= 299)
  }

  /** The turn hands the response it judges to the caller. */
  predicate HandsOver(s: State, t: Turn, o: Options) {
    var x := Receive(s, t, o);
    && x.Have? && Calm(t, o)
    && (Redirecting(x.response) ==> o.redirect.Manual?)
    && (!Redirecting(x.response) ==>
          && !MayRetry(x.state, Some(x.response), None, t.inTry.verdict, o)
          && !CallbackFails(x.state, Some(x.response), None, t.inTry.verdict, o)
          && (o.validateStatus.Some? ==> t.validate.None?)
          && Acceptable(x.response.status, o))
  }

  lemma JudgeReturnsExactly(s: State, r: Response, t: Turn, o: Options)
    ensures Judge(s, r, t, o).Done? <==>
            && Calm(t, o) && (Redirecting(r) ==> o.redirect.Manual?)
            && (!Redirecting(r) ==>
                  && !MayRetry(s, Some(r), None, t.inTry.verdict, o)
                  && !CallbackFails(s, Some(r), None, t.inTry.verdict, o)
                  && (o.validateStatus.Some? ==> t.validate.None?) && Acceptable(r.status, o))
    ensures Judge(s, r, t, o).Done? ==> Judge(s, r, t, o) == Done(s, r)
  {
    DecisionIsExact(s, Some(r), None, t.inTry.verdict, o);
  }

  /** A response is returned exactly when it is to be: a redirect that the caller asked for, or an
      acceptable response that is not retried. It is the one that was judged. */
  lemma ReturnsExactly(s: State, t: Turn, o: Options)
    ensures Iterate(s, t, o).Returned? <==> HandsOver(s, t, o)
    ensures HandsOver(s, t, o) ==>
              Iterate(s, t, o).response == Receive(s, t, o).response && Some(Iterate(s, t, o).response.id) == ChosenId(t)
  {
    ReceivesExactly(s, t, o);
    var x := Receive(s, t, o);
    if x.Have? { JudgeReturnsExactly(x.state, x.response, t, o); }
    var y := Try(s, t, o);
    if y.Caught? { CatchMoves(y.state, y.error, t, o); }
  }

  /** The turn on which a run ends. */
  function LastTurn(s: State, o: Options, turns: Turns, n: nat): nat
    decreases Budget(s, o)
  {
    TurnSpends(s, turns(n), o);
    if Iterate(s, turns(n), o).Loop? then LastTurn(Iterate(s, turns(n), o).state, o, turns, n + 1) else n
  }

  /** What a run returns is the response that its last turn chose. */
  lemma {:induction false} RunReturnsChosen(s: State, o: Options, turns: Turns, n: nat)
    ensures Run(s, o, turns, n).Returned? ==>
              Some(Run(s, o, turns, n).response.id) == ChosenId(turns(LastTurn(s, o, turns, n)))
    decreases Budget(s, o)
  {
    TurnSpends(s, turns(n), o);
    if !Iterate(s, turns(n), o).Loop? {
      ReturnsExactly(s, turns(n), o);
    } else {
      RunReturnsChosen(Iterate(s, turns(n), o).state, o, turns, n + 1);
    }
  }

  /** A response with a status that is not acceptable is thrown with the error that carries it. */
  lemma UnacceptableIsThrown(s: State, r: Response, t: Turn, o: Options)
    requires Calm(t, o) && !Redirecting(r) && !Acceptable(r.status, o)
    requires !MayRetry(s, Some(r), None, t.inTry.verdict, o) && !CallbackFails(s, Some(r), None, t.inTry.verdict, o)
    requires o.validateStatus.Some? ==> t.validate.None?
    ensures Judge(s, r, t, o) == Caught(s, Error(Some("ERR_HTTP_STATUS"), Some(r)))
  {
    DecisionIsExact(s, Some(r), None, t.inTry.verdict, o);
  }

  /** A turn ends the run with an error exactly when the try block fails and the catch clause does not
      retry. Unless a callback of the catch clause throws, it is what beforeError makes of that error. */
  lemma ThrowsExactly(s: State, t: Turn, o: Options)
    ensures Iterate(s, t, o).Threw? <==> Try(s, t, o).Caught? && !RetriesError(s, t, o)
    ensures var y := Try(s, t, o);
            y.Caught? && t.catchStats.None?
            && !MayRetry(y.state, y.error.response, y.error.code, t.inCatch.verdict, o)
            && !CallbackFails(y.state, y.error.response, y.error.code, t.inCatch.verdict, o) ==>
              Iterate(s, t, o).Threw? &&
              Iterate(s, t, o).error == if t.last.Leaves? then y.error else t.last.error
  {
    var y := Try(s, t, o);
    if y.Caught? {
      CatchRetries(y.state, y.error, t, o);
      CatchMoves(y.state, y.error, t, o);
      DecisionIsExact(y.state, y.error.response, y.error.code, t.inCatch.verdict, o);
    }
  }
}
