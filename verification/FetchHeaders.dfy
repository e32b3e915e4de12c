/** The headers of every request a run sends, from the headers of the first one: which survive a
    chain of redirects, and what the Referer becomes. */
module FetchHeaders {
  import opened Basics
  import opened HeaderTable
  import opened Redirects
  import opened Urls
  import opened RedirectChain
  import opened Fetch
  import opened FetchTheorems

  // ----- edits that do not name a header -----

  predicate Leaves(edits: seq<Edit>, key: string) { forall i :: 0 <= i < |edits| ==> Key(edits[i].name) != key }

  lemma {:induction false} EditsLeave(list: seq<Tuple>, edits: seq<Edit>, key: string)
    requires Leaves(edits, key)
    ensures Values(EditList(list, edits), key) == Values(list, key)
    decreases |edits|
  {
    if edits == [] {
    } else {
      var init, e := edits[..|edits| - 1], edits[|edits| - 1];
      EditsLeave(list, init, key);
      var before := EditList(list, init);
      match e
      case AppendEdit(name, value) => LookupAppended(before, name, value, key);
      case SetEdit(name, value) => LookupReplaced(before, name, value, key);
      case DeleteEdit(name) => LookupWithout(before, Key(name), key);
    }
  }

  predicate TurnLeaves(t: Turn, key: string) { Leaves(t.beforeEdits, key) && Leaves(t.redirectEdits, key) }

  ghost predicate HooksLeave(key: string, turns: Turns) { forall n: nat :: TurnLeaves(turns(n), key) }

  /** No hook edits the header, and the cookie jar does not manage it. */
  ghost predicate Untouched(key: string, o: Options, turns: Turns) {
    (o.jar ==> key != "cookie") && HooksLeave(key, turns)
  }

  lemma CookiesLeave(headers: seq<Tuple>, reply: JarReply, key: string)
    requires key != "cookie"
    ensures Values(LoadCookies(headers, reply), key) == Values(headers, key)
  {
    CookieIsKey();
    var bare := Without(headers, "cookie");
    LookupWithout(headers, "cookie", key);
    if reply.Cookies? && reply.text.Some? { LookupReplaced(bare, "cookie", reply.text.value, key); }
  }

  // ----- one turn -----

  /** The values of the last dispatch, if the exchange made one, are those of the request. */
  predicate SentValues(s: State, z: State, values: seq<string>, key: string) {
    z.log.sent == s.log.sent ||
    (z.log.sent != [] && z.log.sent[..|z.log.sent| - 1] == s.log.sent &&
     Values(z.log.sent[|z.log.sent| - 1].request.headers, key) == values)
  }

  lemma AskValues(s: State, t: Turn, key: string)
    ensures var z := AskServer(s, t).state;
            z.request.headers == s.request.headers && SentValues(s, z, Values(s.request.headers, key), key)
  {}

  lemma LoadedValues(s: State, t: Turn, o: Options, key: string)
    requires o.jar ==> key != "cookie"
    ensures Values(Loaded(s, t, o).request.headers, key) == Values(s.request.headers, key)
    ensures Loaded(s, t, o).log == s.log
  {
    if o.jar { CookiesLeave(s.request.headers, t.jar, key); }
  }

  lemma ExchangeValues(s: State, t: Turn, o: Options, key: string)
    requires TurnLeaves(t, key) && (o.jar ==> key != "cookie")
    ensures var z := Exchange(s, t, o).state;
            && Values(z.request.headers, key) == Values(s.request.headers, key)
            && SentValues(s, z, Values(s.request.headers, key), key)
  {
    var s1 := Loaded(s, t, o);
    LoadedValues(s, t, o, key);
    EditsLeave(s1.request.headers, t.beforeEdits, key);
    AskValues(SetHeaders(s1, EditList(s1.request.headers, t.beforeEdits)), t, key);
  }

  lemma ReceiveValues(s: State, t: Turn, o: Options, key: string)
    requires TurnLeaves(t, key) && (o.jar ==> key != "cookie")
    ensures var z := Receive(s, t, o).state;
            && Values(z.request.headers, key) == Values(s.request.headers, key)
            && SentValues(s, z, Values(s.request.headers, key), key)
  {
    ExchangeValues(s, t, o, key);
    var x := Exchange(s, t, o);
    if x.Have? { RunAfterKeeps(x.state, x.response, t.after); }
  }

  /** The turn followed the redirect of the response it received. */
  predicate FollowsResponse(s: State, z: State, t: Turn, o: Options) {
    var x := Receive(s, t, o);
    && x.Have? && x.response.location.Resolved?
    && z == FollowRedirect(x.state, x.response, t, o)
  }

  lemma TryRequest(s: State, t: Turn, o: Options)
    ensures var m, z := Receive(s, t, o).state, Try(s, t, o).state;
            && z.log.sent == m.log.sent
            && ((Try(s, t, o).Continue? && FollowsResponse(s, z, t, o)) || (z.request == m.request && z.log.hops == m.log.hops))
  {
    var x := Receive(s, t, o);
    if x.Have? { JudgeRequest(x.state, x.response, t, o); }
  }

  lemma TurnRequest(s: State, t: Turn, o: Options)
    ensures var m, z := Receive(s, t, o).state, Iterate(s, t, o).state;
            && z.log.sent == m.log.sent
            && (FollowsResponse(s, z, t, o) || (z.request == m.request && z.log.hops == s.log.hops))
  {
    ReceiveKeeps(s, t, o);
    TryRequest(s, t, o);
    var y := Try(s, t, o);
    if y.Caught? { CatchRequest(y.state, y.error, t, o); }
  }

  lemma JudgeFinalRequest(s: State, r: Response, t: Turn, o: Options)
    ensures var z := JudgeFinal(s, r, t, o).state;
            z.log.sent == s.log.sent && z.request == s.request && z.log.hops == s.log.hops
  {}

  lemma JudgeRequest(s: State, r: Response, t: Turn, o: Options)
    ensures var z := Judge(s, r, t, o).state;
            && z.log.sent == s.log.sent
            && ((z.request == s.request && z.log.hops == s.log.hops) ||
                (Judge(s, r, t, o).Continue? && r.location.Resolved? && z == FollowRedirect(s, r, t, o)))
  {
    if !IsRedirect(r) { JudgeFinalRequest(s, r, t, o); }
  }

  lemma CatchRequest(s: State, e: Error, t: Turn, o: Options)
    ensures var z := Catch(s, e, t, o).state;
            z.log.sent == s.log.sent && z.request == s.request && z.log.hops == s.log.hops
  {}

  lemma NextValues(m: State, r: Response, o: Options, key: string)
    requires r.location.Resolved? && key != "referer" && (o.jar ==> key != "cookie")
    ensures Values(NextRequest(m, r, o).headers, key) ==
            if Strips(key, m.request.url, r.location.url, RewriteMethod(m.request.verb, r.status).1) then []
            else Values(m.request.headers, key)
  {
    var to, dropped := r.location.url, RewriteMethod(m.request.verb, r.status).1;
    var stripped := Strip(m.request.headers, m.request.url, to, dropped);
    var policy := PolicyAfter(r.policyTokens, m.policy);
    StripRemovesExactly(m.request.headers, m.request.url, to, dropped, key);
    PolicyTouchesOnlyReferer(stripped, o.parse, policy, to, key);
    LookupWithout(AfterPolicy(stripped, o.parse, policy, to), "cookie", key);
  }

  // ----- header values along a run -----

  function ValuesAfter(first: Request, key: string, hops: seq<Hop>): seq<string> {
    if StrippedBy(key, first.url, first.verb, hops) then [] else Values(first.headers, key)
  }

  ghost predicate SentCarry(s: State, first: Request, key: string) {
    forall i :: 0 <= i < |s.log.sent| ==> DispatchCarries(s.log.sent[i], first, key, s.log.hops)
  }

  predicate DispatchCarries(d: Dispatch, first: Request, key: string, hops: seq<Hop>) {
    d.hop <= |hops| && Values(d.request.headers, key) == ValuesAfter(first, key, hops[..d.hop])
  }

  ghost predicate Carries(s: State, first: Request, key: string) {
    Values(s.request.headers, key) == ValuesAfter(first, key, s.log.hops) && SentCarry(s, first, key)
  }

  lemma FollowCarries(m: State, r: Response, first: Request, t: Turn, o: Options, key: string)
    requires r.location.Resolved? && TurnLeaves(t, key) && (o.jar ==> key != "cookie") && key != "referer"
    requires StandsAt(m.request, first, m.log.hops)
    requires Values(m.request.headers, key) == ValuesAfter(first, key, m.log.hops)
    ensures var z := FollowRedirect(m, r, t, o); Values(z.request.headers, key) == ValuesAfter(first, key, z.log.hops)
  {
    NextValues(m, r, o, key);
    EditsLeave(NextRequest(m, r, o).headers, t.redirectEdits, key);
    assert FollowRedirect(m, r, t, o).log.hops[..|m.log.hops|] == m.log.hops;
  }

  lemma TurnCarriesRequest(s: State, first: Request, t: Turn, o: Options, key: string)
    requires ChainOk(s, first, o) && Values(s.request.headers, key) == ValuesAfter(first, key, s.log.hops)
    requires TurnLeaves(t, key) && (o.jar ==> key != "cookie") && key != "referer"
    ensures var z := Iterate(s, t, o).state; Values(z.request.headers, key) == ValuesAfter(first, key, z.log.hops)
  {
    TurnRequest(s, t, o);
    ReceiveKeeps(s, t, o);
    ReceiveValues(s, t, o, key);
    var x, z := Receive(s, t, o), Iterate(s, t, o).state;
    if FollowsResponse(s, z, t, o) { FollowCarries(x.state, x.response, first, t, o, key); }
  }

  lemma SentCarryOn(s: State, z: State, first: Request, key: string)
    requires SentCarry(s, first, key) && s.log.hops <= z.log.hops
    requires SentValues(s, z, ValuesAfter(first, key, s.log.hops), key)
    requires z.log.sent == s.log.sent || z.log.sent[|z.log.sent| - 1].hop == |s.log.hops|
    ensures SentCarry(z, first, key)
  {
    forall i | 0 <= i < |z.log.sent| ensures DispatchCarries(z.log.sent[i], first, key, z.log.hops) {
      if i < |s.log.sent| {
        assert z.log.sent[i] == s.log.sent[i];
        assert z.log.hops[..s.log.sent[i].hop] == s.log.hops[..s.log.sent[i].hop];
      } else {
        assert z.log.hops[..|s.log.hops|] == s.log.hops;
      }
    }
  }

  lemma TurnExtendsHops(s: State, t: Turn, o: Options)
    ensures s.log.hops <= Iterate(s, t, o).state.log.hops
  {
    TurnMoves(s, t, o);
  }

  lemma TurnSendsAtHop(s: State, t: Turn, o: Options)
    requires |s.chain| == |s.log.hops|
    ensures var z := Iterate(s, t, o).state;
            z.log.sent == s.log.sent || (z.log.sent != [] && z.log.sent[|z.log.sent| - 1].hop == |s.log.hops|)
  {
    TurnSendsOnce(s, t, o);
  }

  lemma TurnCarries(s: State, first: Request, t: Turn, o: Options, key: string)
    requires ChainOk(s, first, o) && Carries(s, first, key)
    requires TurnLeaves(t, key) && (o.jar ==> key != "cookie") && key != "referer"
    ensures Carries(Iterate(s, t, o).state, first, key)
  {
    TurnCarriesRequest(s, first, t, o, key);
    TurnRequest(s, t, o);
    ReceiveValues(s, t, o, key);
    TurnExtendsHops(s, t, o);
    TurnSendsAtHop(s, t, o);
    SentCarryOn(s, Iterate(s, t, o).state, first, key);
  }

  lemma {:induction false} RunCarries(s: State, first: Request, o: Options, turns: Turns, n: nat, key: string)
    requires ChainOk(s, first, o) && Carries(s, first, key) && Untouched(key, o, turns) && key != "referer"
    ensures ChainOk(Run(s, o, turns, n).state, first, o) && Carries(Run(s, o, turns, n).state, first, key)
    decreases Budget(s, o)
  {
    assert TurnLeaves(turns(n), key);
    TurnSpends(s, turns(n), o);
    TurnKeepsChain(s, first, turns(n), o);
    TurnCarries(s, first, turns(n), o, key);
    if !Iterate(s, turns(n), o).Loop? {
    } else {
      RunCarries(Iterate(s, turns(n), o).state, first, o, turns, n + 1, key);
    }
  }

  /** Every request of a run carries a header of the first request exactly when no hop before it
      strips that header, whatever the hooks do to other headers. */
  lemma HeadersAlongRun(first: Request, o: Options, turns: Turns, key: string)
    requires Untouched(key, o, turns) && key != "referer"
    ensures SentCarry(Run(Start(first), o, turns, 0).state, first, key)
  {
    StartOk(first, o);
    RunCarries(Start(first), first, o, turns, 0, key);
  }

  predicate OnOrigin(hops: seq<Hop>, start: Url) {
    forall j :: 0 <= j < |hops| ==> OriginOf(hops[j].to) == OriginOf(start)
  }

  /** The dispatch has the credential exactly when the hops before it stayed on the first origin,
      and then with the values of the first request. */
  predicate BoundToOrigin(d: Dispatch, first: Request, key: string, hops: seq<Hop>) {
    && d.hop <= |hops|
    && (Has(d.request.headers, key) <==> OnOrigin(hops[..d.hop], first.url))
    && (Has(d.request.headers, key) ==> Values(d.request.headers, key) == Values(first.headers, key))
  }

  ghost predicate AllBoundToOrigin(log: Log, first: Request, key: string) {
    forall i :: 0 <= i < |log.sent| ==> BoundToOrigin(log.sent[i], first, key, log.hops)
  }

  lemma CredentialsOf(d: Dispatch, first: Request, key: string, hops: seq<Hop>)
    requires DispatchCarries(d, first, key, hops) && key in CREDENTIALS && Has(first.headers, key)
    ensures BoundToOrigin(d, first, key, hops)
  {
    CredentialsStayOnOrigin(key, first.url, first.verb, hops[..d.hop]);
  }

  /** Credentials reach a hop exactly when it and every hop before it stay on the first origin. */
  lemma CredentialsAlongRun(first: Request, o: Options, turns: Turns, key: string)
    requires key in CREDENTIALS && Untouched(key, o, turns) && Has(first.headers, key)
    ensures AllBoundToOrigin(Run(Start(first), o, turns, 0).state.log, first, key)
  {
    assert key != "referer";
    HeadersAlongRun(first, o, turns, key);
    var log := Run(Start(first), o, turns, 0).state.log;
    forall i | 0 <= i < |log.sent| ensures BoundToOrigin(log.sent[i], first, key, log.hops) {
      CredentialsOf(log.sent[i], first, key, log.hops);
    }
  }

  /** A redirected dispatch has no host and no content-length, and the content-type of the first
      request exactly until the body is dropped. */
  predicate FramingRenewed(d: Dispatch, first: Request, hops: seq<Hop>) {
    && d.hop <= |hops|
    && (d.hop > 0 ==> !Has(d.request.headers, "host") && !Has(d.request.headers, "content-length"))
    && Values(d.request.headers, "content-type") ==
       (if BodyDropped(first.verb, hops[..d.hop]) then [] else Values(first.headers, "content-type"))
  }

  lemma FramingOf(d: Dispatch, first: Request, hops: seq<Hop>)
    requires DispatchCarries(d, first, "host", hops) && DispatchCarries(d, first, "content-length", hops)
    requires DispatchCarries(d, first, "content-type", hops)
    ensures FramingRenewed(d, first, hops)
  {
    FramingHeadersAreLost("host", first.url, first.verb, hops[..d.hop]);
    FramingHeadersAreLost("content-length", first.url, first.verb, hops[..d.hop]);
    ContentTypeFollowsBody(first.url, first.verb, hops[..d.hop]);
  }

  /** No redirected request carries the caller's host or content-length, and the content-type is
      gone exactly when the body has been dropped. */
  lemma FramingAlongRun(first: Request, o: Options, turns: Turns)
    requires HooksLeave("host", turns) && HooksLeave("content-length", turns) && HooksLeave("content-type", turns)
    ensures var log := Run(Start(first), o, turns, 0).state.log;
            forall i :: 0 <= i < |log.sent| ==> FramingRenewed(log.sent[i], first, log.hops)
  {
    HeadersAlongRun(first, o, turns, "host");
    HeadersAlongRun(first, o, turns, "content-length");
    HeadersAlongRun(first, o, turns, "content-type");
    var log := Run(Start(first), o, turns, 0).state.log;
    forall i | 0 <= i < |log.sent| ensures FramingRenewed(log.sent[i], first, log.hops) {
      FramingOf(log.sent[i], first, log.hops);
    }
  }

  // ----- the Referer along a run -----

  /** The policy variable is the last recognised token of every response whose redirect was taken
      up, whether it was followed or a beforeRedirect hook stopped it. */
  predicate PolicyOk(s: State) { s.policy == PolicyAfter(s.log.pending, PolicyInForce(s.log.hops)) }

  predicate SamePolicy(s: State, z: State) {
    z.policy == s.policy && z.log.pending == s.log.pending && z.log.hops == s.log.hops
  }

  lemma AskPolicy(s: State, t: Turn)
    ensures SamePolicy(s, AskServer(s, t).state)
  {}

  lemma HeadersPolicy(s: State, headers: seq<Tuple>)
    ensures SamePolicy(s, SetHeaders(s, headers))
  {}

  lemma ExchangePolicy(s: State, t: Turn, o: Options)
    ensures SamePolicy(s, Exchange(s, t, o).state)
  {
    HeadersPolicy(s, LoadCookies(s.request.headers, t.jar));
    var s1 := Loaded(s, t, o);
    HeadersPolicy(s1, EditList(s1.request.headers, t.beforeEdits));
    AskPolicy(SetHeaders(s1, EditList(s1.request.headers, t.beforeEdits)), t);
  }

  lemma {:induction false} RunAfterPolicy(s: State, current: Response, hooks: seq<AfterHook>)
    ensures SamePolicy(s, RunAfter(s, current, hooks).state)
    decreases |hooks|
  {
    if hooks == [] {
    } else {
      match hooks[0]
      case AfterFails(_) =>
      case Keeps => RunAfterPolicy(s, current, hooks[1..]);
      case Returns(r) =>
        RunAfterPolicy(s, current, hooks[1..]);
        RunAfterPolicy(Cancel(Obtain(s, r), current), r, hooks[1..]);
    }
  }

  lemma ReceivePolicy(s: State, t: Turn, o: Options)
    ensures SamePolicy(s, Receive(s, t, o).state)
  {
    ExchangePolicy(s, t, o);
    var x := Exchange(s, t, o);
    if x.Have? { RunAfterPolicy(x.state, x.response, t.after); }
  }

  lemma JudgeFinalPolicy(s: State, r: Response, t: Turn, o: Options)
    ensures SamePolicy(s, JudgeFinal(s, r, t, o).state)
  {}

  lemma JudgeRedirectStates(s: State, r: Response, t: Turn, o: Options)
    requires IsRedirect(r)
    ensures var z := JudgeRedirect(s, r, t, o).state;
            z == s || z == Cancel(s, r) || z == Abandon(s, r) || (r.location.Resolved? && z == FollowRedirect(s, r, t, o))
  {}

  lemma JudgePolicyMoves(s: State, r: Response, t: Turn, o: Options)
    ensures var z := Judge(s, r, t, o).state;
            SamePolicy(s, z) || z == Abandon(s, r) || (r.location.Resolved? && z == FollowRedirect(s, r, t, o))
  {
    if IsRedirect(r) { JudgeRedirectStates(s, r, t, o); } else { JudgeFinalPolicy(s, r, t, o); }
  }

  lemma CatchPolicy(s: State, e: Error, t: Turn, o: Options)
    ensures SamePolicy(s, Catch(s, e, t, o).state)
  {}

  lemma FollowKeepsPolicy(s: State, r: Response, t: Turn, o: Options)
    requires r.location.Resolved? && PolicyOk(s)
    ensures PolicyOk(FollowRedirect(s, r, t, o))
  {
    var hop := Hop(r.status, r.location.url, s.log.pending + r.policyTokens);
    PolicyStep(s.log.hops, hop);
    PolicyAfterAppend(s.log.pending, r.policyTokens, PolicyInForce(s.log.hops));
  }

  lemma AbandonKeepsPolicy(s: State, r: Response)
    requires PolicyOk(s)
    ensures PolicyOk(Abandon(s, r))
  {
    PolicyAfterAppend(s.log.pending, r.policyTokens, PolicyInForce(s.log.hops));
  }

  lemma SameKeepsPolicy(s: State, z: State)
    requires PolicyOk(s) && SamePolicy(s, z)
    ensures PolicyOk(z)
  {}

  lemma JudgeKeepsPolicy(s: State, r: Response, t: Turn, o: Options)
    requires PolicyOk(s)
    ensures PolicyOk(Judge(s, r, t, o).state)
  {
    JudgePolicyMoves(s, r, t, o);
    var z := Judge(s, r, t, o).state;
    if SamePolicy(s, z) { SameKeepsPolicy(s, z); } else {
      AbandonKeepsPolicy(s, r);
      if r.location.Resolved? { FollowKeepsPolicy(s, r, t, o); }
    }
  }

  lemma TurnKeepsPolicy(s: State, t: Turn, o: Options)
    requires PolicyOk(s)
    ensures PolicyOk(Iterate(s, t, o).state)
  {
    ReceivePolicy(s, t, o);
    var x := Receive(s, t, o);
    SameKeepsPolicy(s, x.state);
    if x.Have? {
      JudgeKeepsPolicy(x.state, x.response, t, o);
      var y := Judge(x.state, x.response, t, o);
      if y.Caught? {
        CatchPolicy(y.state, y.error, t, o);
        SameKeepsPolicy(y.state, Catch(y.state, y.error, t, o).state);
      }
    } else {
      CatchPolicy(x.state, x.error, t, o);
      SameKeepsPolicy(x.state, Catch(x.state, x.error, t, o).state);
    }
  }

  predicate RefererCarries(list: seq<Tuple>, first: Request, parse: Parser, hops: seq<Hop>) {
    Shows(list, Combined(first.headers, "referer"), parse, hops)
  }

  lemma NextReferer(m: State, r: Response, first: Request, o: Options, hops: seq<Hop>, hop: Hop)
    requires RoundTrips(o.parse) && r.location.Resolved? && hop.to == r.location.url
    requires PolicyAfter(r.policyTokens, m.policy) == PolicyInForce(hops + [hop])
    requires RefererCarries(m.request.headers, first, o.parse, hops)
    ensures RefererCarries(NextRequest(m, r, o).headers, first, o.parse, hops + [hop])
  {
    var to, dropped := r.location.url, RewriteMethod(m.request.verb, r.status).1;
    var stripped := Strip(m.request.headers, m.request.url, to, dropped);
    StripKeepsReferer(m.request.headers, m.request.url, to, dropped);
    SameValuesSameReferer(m.request.headers, stripped, first, o.parse, hops);
    RefererStep(stripped, Combined(first.headers, "referer"), o.parse, hops, hop);
    var named := AfterPolicy(stripped, o.parse, PolicyInForce(hops + [hop]), to);
    LookupWithout(named, "cookie", "referer");
    SameValuesSameReferer(named, Without(named, "cookie"), first, o.parse, hops + [hop]);
  }

  lemma StripKeepsReferer(list: seq<Tuple>, from: Url, to: Url, dropped: bool)
    ensures Values(Strip(list, from, to, dropped), "referer") == Values(list, "referer")
  {
    StripRemovesExactly(list, from, to, dropped, "referer");
  }

  lemma TurnReferer(s: State, first: Request, t: Turn, o: Options)
    requires RoundTrips(o.parse) && PolicyOk(s) && TurnLeaves(t, "referer")
    requires RefererCarries(s.request.headers, first, o.parse, s.log.hops)
    ensures RefererCarries(Iterate(s, t, o).state.request.headers, first, o.parse, Iterate(s, t, o).state.log.hops)
  {
    TurnRequest(s, t, o);
    ReceivePolicy(s, t, o);
    ReceiveValues(s, t, o, "referer");
    var x, z := Receive(s, t, o), Iterate(s, t, o).state;
    if FollowsResponse(s, z, t, o) {
      FollowKeepsPolicy(x.state, x.response, t, o);
      var hop := Hop(x.response.status, x.response.location.url, s.log.pending + x.response.policyTokens);
      assert z.log.hops == s.log.hops + [hop];
      NextReferer(x.state, x.response, first, o, s.log.hops, hop);
      EditsLeave(NextRequest(x.state, x.response, o).headers, t.redirectEdits, "referer");
    }
  }

  ghost predicate SentReferer(s: State, first: Request, parse: Parser) {
    forall i :: 0 <= i < |s.log.sent| ==> DispatchReferer(s.log.sent[i], first, parse, s.log.hops)
  }

  predicate DispatchReferer(d: Dispatch, first: Request, parse: Parser, hops: seq<Hop>) {
    d.hop <= |hops| && RefererCarries(d.request.headers, first, parse, hops[..d.hop])
  }

  ghost predicate RefererRun(s: State, first: Request, o: Options) {
    && ChainOk(s, first, o) && PolicyOk(s) && RefererCarries(s.request.headers, first, o.parse, s.log.hops)
    && SentReferer(s, first, o.parse)
  }

  lemma SameValuesSameReferer(a: seq<Tuple>, b: seq<Tuple>, first: Request, parse: Parser, hops: seq<Hop>)
    requires Values(a, "referer") == Values(b, "referer") && RefererCarries(a, first, parse, hops)
    ensures RefererCarries(b, first, parse, hops)
  {}

  lemma DispatchRefererStays(d: Dispatch, first: Request, parse: Parser, hops: seq<Hop>, more: seq<Hop>)
    requires DispatchReferer(d, first, parse, hops) && hops <= more
    ensures DispatchReferer(d, first, parse, more)
  {
    assert more[..d.hop] == hops[..d.hop];
  }

  lemma NewDispatchReferer(d: Dispatch, s: State, first: Request, parse: Parser)
    requires RefererCarries(s.request.headers, first, parse, s.log.hops) && d.hop == |s.log.hops|
    requires Values(d.request.headers, "referer") == Values(s.request.headers, "referer")
    ensures DispatchReferer(d, first, parse, s.log.hops)
  {
    assert s.log.hops[..d.hop] == s.log.hops;
    SameValuesSameReferer(s.request.headers, d.request.headers, first, parse, s.log.hops);
  }

  /** Either nothing was sent, or one dispatch with this Referer at the current hop. */
  predicate SentAtHop(s: State, z: State, values: seq<string>) {
    SentValues(s, z, values, "referer") &&
    (z.log.sent == s.log.sent || z.log.sent[|z.log.sent| - 1].hop == |s.log.hops|)
  }

  lemma SentRefererAt(s: State, z: State, first: Request, parse: Parser, i: nat)
    requires SentReferer(s, first, parse) && SentAtHop(s, z, Values(s.request.headers, "referer"))
    requires RefererCarries(s.request.headers, first, parse, s.log.hops) && i < |z.log.sent|
    ensures DispatchReferer(z.log.sent[i], first, parse, s.log.hops)
  {
    if i < |s.log.sent| {
      assert z.log.sent[i] == s.log.sent[i];
    } else {
      NewDispatchReferer(z.log.sent[i], s, first, parse);
    }
  }

  lemma SentRefererOn(s: State, z: State, first: Request, parse: Parser)
    requires SentReferer(s, first, parse) && s.log.hops <= z.log.hops
    requires SentAtHop(s, z, Values(s.request.headers, "referer"))
    requires RefererCarries(s.request.headers, first, parse, s.log.hops)
    ensures SentReferer(z, first, parse)
  {
    forall i: nat | i < |z.log.sent| ensures DispatchReferer(z.log.sent[i], first, parse, z.log.hops) {
      SentRefererAt(s, z, first, parse, i);
      DispatchRefererStays(z.log.sent[i], first, parse, s.log.hops, z.log.hops);
    }
  }

  lemma TurnRefererRun(s: State, first: Request, t: Turn, o: Options)
    requires RoundTrips(o.parse) && RefererRun(s, first, o) && TurnLeaves(t, "referer")
    ensures RefererRun(Iterate(s, t, o).state, first, o)
  {
    TurnKeepsChain(s, first, t, o);
    TurnKeepsPolicy(s, t, o);
    TurnReferer(s, first, t, o);
    TurnRequest(s, t, o);
    ReceiveValues(s, t, o, "referer");
    TurnExtendsHops(s, t, o);
    TurnSendsAtHop(s, t, o);
    SentRefererOn(s, Iterate(s, t, o).state, first, o.parse);
  }

  lemma {:induction false} RunReferer(s: State, first: Request, o: Options, turns: Turns, n: nat)
    requires RoundTrips(o.parse) && RefererRun(s, first, o) && HooksLeave("referer", turns)
    ensures RefererRun(Run(s, o, turns, n).state, first, o)
    decreases Budget(s, o)
  {
    assert TurnLeaves(turns(n), "referer");
    TurnSpends(s, turns(n), o);
    TurnRefererRun(s, first, turns(n), o);
    if !Iterate(s, turns(n), o).Loop? {
    } else {
      RunReferer(Iterate(s, turns(n), o).state, first, o, turns, n + 1);
    }
  }

  /** A dispatch shows only a discreet part of the URL that the first Referer was. */
  ghost predicate ShowsDiscreetly(d: Dispatch, u: Url) {
    Combined(d.request.headers, "referer").Some? ==>
      exists shown: Url :: Discreet(shown, u) && Combined(d.request.headers, "referer") == Some(Print(shown))
  }

  /** No redirected request shows credentials, the fragment or an overlong path of the first Referer. */
  lemma RefererKeepsSecrets(first: Request, o: Options, turns: Turns, u: Url, i: nat)
    requires RoundTrips(o.parse) && HooksLeave("referer", turns)
    requires Combined(first.headers, "referer").Some? && Combined(first.headers, "referer").value != ""
    requires o.parse(Combined(first.headers, "referer").value) == Some(u) && IsHttp(u)
    requires var sent := Run(Start(first), o, turns, 0).state.log.sent; i < |sent| && sent[i].hop > 0
    ensures ShowsDiscreetly(Run(Start(first), o, turns, 0).state.log.sent[i], u)
  {
    RefererAlongRun(first, o, turns);
    var log := Run(Start(first), o, turns, 0).state.log;
    assert DispatchReferer(log.sent[i], first, o.parse, log.hops);
    RefererIsDiscreet(Combined(first.headers, "referer").value, u, o.parse, log.hops[..log.sent[i].hop]);
  }

  /** The Referer of the request on hop k is the first Referer with the least detail that any of
      the k hops allows, cleaned once there was a hop: step by step equals the minimum over the chain. */
  lemma RefererAlongRun(first: Request, o: Options, turns: Turns)
    requires RoundTrips(o.parse) && HooksLeave("referer", turns)
    ensures SentReferer(Run(Start(first), o, turns, 0).state, first, o.parse)
  {
    StartOk(first, o);
    RunReferer(Start(first), first, o, turns, 0);
  }
}
