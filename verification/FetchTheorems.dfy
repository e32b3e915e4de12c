/** What holds in every run of the fetch loop: the redirect chain, the requests that are sent,
    the number of dispatches and of retries. */
module FetchTheorems {
  import opened Basics
  import opened Redirects
  import opened Urls
  import opened RedirectChain
  import opened Fetch

  /** z is the state at some loop head of the run. */
  predicate AtHead(z: State, s: State, o: Options, turns: Turns, n: nat)
    decreases Budget(s, o)
  {
    TurnSpends(s, turns(n), o);
    z == s || (Iterate(s, turns(n), o).Loop? && AtHead(z, Iterate(s, turns(n), o).state, o, turns, n + 1))
  }

  // ----- the redirect chain -----

  function Targets(hops: seq<Hop>): set<Url> {
    if hops == [] then {} else Targets(hops[..|hops| - 1]) + {hops[|hops| - 1].to}
  }

  predicate Distinct(start: Url, hops: seq<Hop>) {
    hops == [] ||
    (hops[|hops| - 1].to !in Targets(hops[..|hops| - 1]) + {start} && Distinct(start, hops[..|hops| - 1]))
  }

  /** Entry i of the chain describes hop i. */
  predicate Describes(e: RedirectEntry, first: Request, hops: seq<Hop>, i: nat)
    requires i < |hops|
  {
    && e.fromUrl == UrlAfter(first.url, hops[..i]) && e.toUrl == hops[i].to && e.status == hops[i].status
    && e.verb == VerbAfter(first.verb, hops[..i + 1])
  }

  /** A request that stands where the hops lead. */
  predicate StandsAt(q: Request, first: Request, hops: seq<Hop>) {
    && q.url == UrlAfter(first.url, hops) && q.verb == VerbAfter(first.verb, hops)
    && (if BodyDropped(first.verb, hops) then q.body == NoBody else Spent(first.body, q.body))
  }

  ghost predicate Described(s: State, first: Request) {
    |s.chain| == |s.log.hops| &&
    forall i :: 0 <= i < |s.chain| ==> Describes(s.chain[i], first, s.log.hops, i)
  }

  ghost predicate ChainOk(s: State, first: Request, o: Options) {
    && Described(s, first)
    && StandsAt(s.request, first, s.log.hops)
    && s.visited == Targets(s.log.hops) + {first.url} && Distinct(first.url, s.log.hops)
    && |s.chain| <= Positive(o.maxRedirects)
  }

  lemma StandsAtNext(q: Request, z: Request, first: Request, hops: seq<Hop>, hop: Hop)
    requires StandsAt(q, first, hops)
    requires z.url == hop.to && z.verb == RewriteMethod(q.verb, hop.status).0
    requires if RewriteMethod(q.verb, hop.status).1 then z.body == NoBody else Spent(q.body, z.body)
    ensures StandsAt(z, first, hops + [hop])
  {
    assert (hops + [hop])[..|hops|] == hops;
  }

  lemma DescribedNext(s: State, z: State, first: Request, o: Options)
    requires Described(s, first) && StandsAt(s.request, first, s.log.hops) && Followed(s, z, o)
    ensures Described(z, first)
  {
    var hops, k := z.log.hops, |s.log.hops|;
    forall i | 0 <= i < |z.chain| ensures Describes(z.chain[i], first, hops, i) {
      assert hops[..k] == s.log.hops;
      if i < k {
        assert z.chain[i] == s.chain[i] && Describes(s.chain[i], first, s.log.hops, i);
        assert hops[..i] == s.log.hops[..i] && hops[..i + 1] == s.log.hops[..i + 1];
      } else {
        assert hops[..k + 1] == hops && hops[..k + 1][..k] == s.log.hops;
      }
    }
  }

  lemma FollowedKeepsChain(s: State, z: State, first: Request, o: Options)
    requires ChainOk(s, first, o) && Followed(s, z, o)
    ensures ChainOk(z, first, o)
  {
    var hop := z.log.hops[|s.log.hops|];
    assert z.log.hops[..|s.log.hops|] == s.log.hops;
    DescribedNext(s, z, first, o);
    StandsAtNext(s.request, z.request, first, s.log.hops, hop);
  }

  lemma KeptKeepsChain(s: State, z: State, first: Request, o: Options)
    requires ChainOk(s, first, o) && Kept(s.(attempt := z.attempt), z)
    ensures ChainOk(z, first, o)
  {}

  lemma TurnKeepsChain(s: State, first: Request, t: Turn, o: Options)
    requires ChainOk(s, first, o)
    ensures ChainOk(Iterate(s, t, o).state, first, o)
  {
    TurnMoves(s, t, o);
    var z := Iterate(s, t, o).state;
    if Followed(s, z, o) && Iterate(s, t, o).Loop? { FollowedKeepsChain(s, z, first, o); } else { KeptKeepsChain(s, z, first, o); }
  }

  lemma {:induction false} HeadsKeepChain(z: State, s: State, first: Request, o: Options, turns: Turns, n: nat)
    requires ChainOk(s, first, o) && AtHead(z, s, o, turns, n)
    ensures ChainOk(z, first, o)
    decreases Budget(s, o)
  {
    if z == s {
    } else {
      TurnSpends(s, turns(n), o);
      TurnKeepsChain(s, first, turns(n), o);
      HeadsKeepChain(z, Iterate(s, turns(n), o).state, first, o, turns, n + 1);
    }
  }

  lemma StartOk(first: Request, o: Options)
    ensures ChainOk(Start(first), first, o)
  {}

  lemma {:induction false} DistinctMeans(start: Url, hops: seq<Hop>)
    requires Distinct(start, hops)
    ensures forall i :: 0 <= i < |hops| ==> hops[i].to in Targets(hops) && hops[i].to != start
    ensures forall i, j :: 0 <= i < j < |hops| ==> hops[i].to != hops[j].to
    decreases |hops|
  {
    if hops == [] {
    } else {
      DistinctMeans(start, hops[..|hops| - 1]);
    }
  }

  lemma LinkAt(s: State, first: Request, i: nat)
    requires Described(s, first) && i < |s.chain|
    ensures s.chain[i].fromUrl == if i == 0 then first.url else s.chain[i - 1].toUrl
    ensures s.chain[i].toUrl == s.log.hops[i].to
  {
    var hops := s.log.hops;
    assert Describes(s.chain[i], first, hops, i);
    if i > 0 {
      assert Describes(s.chain[i - 1], first, hops, i - 1);
      assert hops[..i][i - 1] == hops[i - 1];
    }
  }

  /** Linked from the first URL to the current one, no URL twice, at most maxRedirects long. */
  ghost predicate Linked(z: State, first: Request, o: Options) {
    && |z.chain| <= Positive(o.maxRedirects)
    && z.request.url == (if z.chain == [] then first.url else z.chain[|z.chain| - 1].toUrl)
    && (forall i :: 0 <= i < |z.chain| ==>
          z.chain[i].fromUrl == (if i == 0 then first.url else z.chain[i - 1].toUrl) && z.chain[i].toUrl != first.url)
    && (forall i, j :: 0 <= i < j < |z.chain| ==> z.chain[i].toUrl != z.chain[j].toUrl)
  }

  lemma NoUrlTwice(z: State, first: Request, o: Options, i: nat, j: nat)
    requires ChainOk(z, first, o) && i < j < |z.chain|
    ensures z.chain[i].toUrl != z.chain[j].toUrl
  {
    DistinctMeans(first.url, z.log.hops);
    LinkAt(z, first, i);
    LinkAt(z, first, j);
  }

  lemma NotBackToStart(z: State, first: Request, o: Options, i: nat)
    requires ChainOk(z, first, o) && i < |z.chain|
    ensures z.chain[i].toUrl != first.url
  {
    DistinctMeans(first.url, z.log.hops);
    LinkAt(z, first, i);
  }

  lemma LastLink(z: State, first: Request, o: Options)
    requires ChainOk(z, first, o)
    ensures z.request.url == if z.chain == [] then first.url else z.chain[|z.chain| - 1].toUrl
  {
    if z.chain != [] { LinkAt(z, first, |z.chain| - 1); }
  }

  lemma ChainIsLinked(z: State, first: Request, o: Options)
    requires ChainOk(z, first, o)
    ensures Linked(z, first, o)
  {
    LastLink(z, first, o);
    forall i: nat | i < |z.chain|
      ensures z.chain[i].fromUrl == (if i == 0 then first.url else z.chain[i - 1].toUrl) && z.chain[i].toUrl != first.url
    {
      LinkAt(z, first, i);
      NotBackToStart(z, first, o, i);
    }
    forall i: nat, j: nat | i < j < |z.chain| ensures z.chain[i].toUrl != z.chain[j].toUrl {
      NoUrlTwice(z, first, o, i, j);
    }
  }

  /** At every loop head of every run the chain is linked from the first URL to the current one,
      never visits a URL twice and is at most maxRedirects long. */
  lemma RedirectChainIsLinked(z: State, first: Request, o: Options, turns: Turns)
    requires AtHead(z, Start(first), o, turns, 0)
    ensures Linked(z, first, o)
  {
    StartOk(first, o);
    HeadsKeepChain(z, Start(first), first, o, turns, 0);
    ChainIsLinked(z, first, o);
  }

  /** A retry leaves the chain, the visited URLs and the method as they are. */
  lemma RetryKeepsPlace(s: State, t: Turn, o: Options)
    requires Iterate(s, t, o).Loop? && Iterate(s, t, o).state.attempt != s.attempt
    ensures Kept(s.(attempt := s.attempt + 1), Iterate(s, t, o).state)
  {
    TurnMoves(s, t, o);
  }

  // ----- dispatches -----

  ghost predicate SentOk(s: State, first: Request) {
    forall i :: 0 <= i < |s.log.sent| ==> DispatchOk(s.log.sent[i], first, s.log.hops)
  }

  /** A dispatch carries the request the hops before it lead to, and never a used stream. */
  predicate DispatchOk(d: Dispatch, first: Request, hops: seq<Hop>) {
    d.hop <= |hops| && StandsAt(d.request, first, hops[..d.hop]) && d.request.body != Stream(true)
  }

  ghost predicate InOrder(s: State) {
    forall i, j :: 0 <= i < j < |s.log.sent| ==> s.log.sent[i].hop <= s.log.sent[j].hop
  }

  /** At most one dispatch is added, with the request of this turn. */
  predicate SentOnce(s: State, z: State) {
    || z.log.sent == s.log.sent
    || (|z.log.sent| == |s.log.sent| + 1 && z.log.sent[..|s.log.sent|] == s.log.sent &&
        var d := z.log.sent[|s.log.sent|];
        d.hop == |s.chain| && d.request.url == s.request.url && d.request.verb == s.request.verb &&
        d.request.body == s.request.body != Stream(true))
  }

  lemma ExchangeSendsOnce(s: State, t: Turn, o: Options)
    ensures SentOnce(s, Exchange(s, t, o).state)
  {}

  lemma TurnSendsOnce(s: State, t: Turn, o: Options)
    ensures SentOnce(s, Iterate(s, t, o).state)
  {
    ExchangeSendsOnce(s, t, o);
    var e := Exchange(s, t, o);
    if e.Have? { RunAfterKeeps(e.state, e.response, t.after); }
    var r := Receive(s, t, o);
    assert r.state.log.sent == e.state.log.sent;
    if r.Raised? {
      CatchMoves(r.state, r.error, t, o);
    } else {
      JudgeMoves(r.state, r.response, t, o);
      var j := Judge(r.state, r.response, t, o);
      if j.Caught? { CatchMoves(j.state, j.error, t, o); }
    }
  }

  lemma DispatchStays(d: Dispatch, first: Request, hops: seq<Hop>, more: seq<Hop>)
    requires DispatchOk(d, first, hops) && hops <= more
    ensures DispatchOk(d, first, more)
  {
    assert more[..d.hop] == hops[..d.hop];
  }

  ghost predicate HopsUpTo(s: State, n: nat) {
    forall i :: 0 <= i < |s.log.sent| ==> s.log.sent[i].hop <= n
  }

  lemma SentOnceKeepsSent(s: State, z: State, first: Request)
    requires SentOk(s, first) && SentOnce(s, z) && s.log.hops <= z.log.hops
    requires StandsAt(s.request, first, s.log.hops) && |s.chain| == |s.log.hops|
    ensures SentOk(z, first)
  {
    forall i: nat | i < |z.log.sent| ensures DispatchOk(z.log.sent[i], first, z.log.hops) {
      if i < |s.log.sent| {
        assert z.log.sent[i] == s.log.sent[i];
        DispatchStays(s.log.sent[i], first, s.log.hops, z.log.hops);
      } else {
        assert z.log.hops[..|s.chain|] == s.log.hops;
      }
    }
  }

  lemma SentOnceKeepsOrder(s: State, z: State)
    requires InOrder(s) && HopsUpTo(s, |s.chain|) && SentOnce(s, z)
    ensures InOrder(z) && HopsUpTo(z, |s.chain|)
  {
    assert forall i :: 0 <= i < |s.log.sent| ==> z.log.sent[i] == s.log.sent[i];
  }

  lemma TurnKeepsSent(s: State, first: Request, t: Turn, o: Options)
    requires ChainOk(s, first, o) && SentOk(s, first) && InOrder(s) && HopsUpTo(s, |s.chain|)
    ensures SentOk(Iterate(s, t, o).state, first) && InOrder(Iterate(s, t, o).state)
    ensures HopsUpTo(Iterate(s, t, o).state, |s.chain|)
  {
    TurnMoves(s, t, o);
    TurnSendsOnce(s, t, o);
    SentOnceKeepsSent(s, Iterate(s, t, o).state, first);
    SentOnceKeepsOrder(s, Iterate(s, t, o).state);
  }

  ghost predicate RunOk(s: State, first: Request, o: Options) {
    && ChainOk(s, first, o) && SentOk(s, first) && InOrder(s)
    && HopsUpTo(s, |s.chain|)
    && 1 <= s.attempt <= 1 + Positive(o.limit) && |s.log.sent| < |s.chain| + s.attempt
  }

  lemma TurnKeepsRun(s: State, first: Request, t: Turn, o: Options)
    requires RunOk(s, first, o) && Iterate(s, t, o).Loop?
    ensures RunOk(Iterate(s, t, o).state, first, o)
  {
    TurnKeepsChain(s, first, t, o);
    TurnKeepsSent(s, first, t, o);
    TurnMoves(s, t, o);
    TurnSendsOnce(s, t, o);
  }

  /** The end of a run: the chain and the dispatches are in order, and one dispatch may have been
      added to the last loop head. */
  ghost predicate EndOk(z: State, first: Request, o: Options) {
    && ChainOk(z, first, o) && SentOk(z, first) && InOrder(z)
    && |z.log.sent| <= 1 + Positive(o.maxRedirects) + Positive(o.limit) && z.attempt <= 1 + Positive(o.limit)
  }

  lemma LastTurn(s: State, first: Request, t: Turn, o: Options)
    requires RunOk(s, first, o) && !Iterate(s, t, o).Loop?
    ensures EndOk(Iterate(s, t, o).state, first, o)
  {
    TurnKeepsChain(s, first, t, o);
    TurnKeepsSent(s, first, t, o);
    TurnMoves(s, t, o);
    TurnSendsOnce(s, t, o);
  }

  lemma {:induction false} RunEndsOk(s: State, first: Request, o: Options, turns: Turns, n: nat)
    requires RunOk(s, first, o)
    ensures EndOk(Run(s, o, turns, n).state, first, o)
    decreases Budget(s, o)
  {
    TurnSpends(s, turns(n), o);
    if Iterate(s, turns(n), o).Loop? {
      TurnKeepsRun(s, first, turns(n), o);
      RunEndsOk(Iterate(s, turns(n), o).state, first, o, turns, n + 1);
    } else {
      LastTurn(s, first, turns(n), o);
    }
  }

  lemma StartRunOk(first: Request, o: Options)
    ensures RunOk(Start(first), first, o)
  {
    StartOk(first, o);
  }

  predicate WithinLimits(log: Log, o: Options) {
    |log.sent| <= 1 + Positive(o.maxRedirects) + Positive(o.limit)
  }

  /** Every run ends, with at most 1 + maxRedirects + limit dispatches, however redirects and
      retries of both kinds interleave. */
  lemma DispatchesAreBounded(first: Request, o: Options, turns: Turns)
    ensures WithinLimits(Run(Start(first), o, turns, 0).state.log, o)
  {
    StartRunOk(first, o);
    RunEndsOk(Start(first), first, o, turns, 0);
  }

  /** What a later request may differ in: it is a GET without a body, or it has the same method;
      its body is gone, or it is the body of the earlier one. */
  predicate Descends(a: Request, b: Request) {
    && (b.verb == a.verb || (b.verb == "GET" && b.body == NoBody))
    && (b.body == NoBody || b.body == a.body)
  }

  lemma LaterDescends(a: Request, b: Request, first: Request, early: seq<Hop>, later: seq<Hop>)
    requires early <= later && StandsAt(a, first, early) && StandsAt(b, first, later)
    requires a.body != Stream(true) && b.body != Stream(true)
    ensures Descends(a, b)
  {
    var rest := later[|early|..];
    assert early + rest == later;
    ChainsCompose(first.verb, early, rest);
    MethodChangesOnlyToGet(a.verb, rest);
    MethodChangesOnlyToGet(first.verb, early);
  }

  ghost predicate AllDescend(sent: seq<Dispatch>) {
    forall i, j :: 0 <= i < j < |sent| ==> Descends(sent[i].request, sent[j].request)
  }

  lemma SentDescends(z: State, first: Request, i: nat, j: nat)
    requires SentOk(z, first) && InOrder(z) && i < j < |z.log.sent|
    ensures Descends(z.log.sent[i].request, z.log.sent[j].request)
  {
    var a, b := z.log.sent[i], z.log.sent[j];
    assert DispatchOk(a, first, z.log.hops) && DispatchOk(b, first, z.log.hops);
    assert z.log.hops[..b.hop][..a.hop] == z.log.hops[..a.hop];
    LaterDescends(a.request, b.request, first, z.log.hops[..a.hop], z.log.hops[..b.hop]);
  }

  /** Some hop drops the body of the first request. */
  ghost predicate LosesBody(verb: string, hops: seq<Hop>) {
    exists i :: 0 <= i < |hops| && (hops[i].status == 303 || (verb == "POST" && (hops[i].status == 301 || hops[i].status == 302)))
  }

  /** The method and the body of a dispatch after these hops. */
  ghost predicate Rewritten(q: Request, first: Request, hops: seq<Hop>) {
    if LosesBody(first.verb, hops) then q.verb == (if first.verb == "HEAD" then "HEAD" else "GET") && q.body == NoBody
    else q.verb == first.verb && q.body == first.body
  }

  ghost predicate AllRewritten(log: Log, first: Request) {
    forall i :: 0 <= i < |log.sent| ==> log.sent[i].hop <= |log.hops| && Rewritten(log.sent[i].request, first, log.hops[..log.sent[i].hop])
  }

  lemma DispatchIsRewritten(d: Dispatch, first: Request, hops: seq<Hop>)
    requires DispatchOk(d, first, hops)
    ensures Rewritten(d.request, first, hops[..d.hop])
  {
    var passed := hops[..d.hop];
    MethodAlongChain(first.verb, passed);
    assert forall i :: 0 <= i < |passed| && DropsBody(first.verb, passed[i].status) ==> LosesBody(first.verb, passed);
  }

  lemma AllDispatchesDescend(z: State, first: Request)
    requires SentOk(z, first) && InOrder(z)
    ensures AllDescend(z.log.sent)
  {
    forall i: nat, j: nat | i < j < |z.log.sent| ensures Descends(z.log.sent[i].request, z.log.sent[j].request) {
      SentDescends(z, first, i, j);
    }
  }

  /** In every run each request sent has the method and the body of the first one until a hop drops the
      body: a 303, or a 301 or 302 of a POST. From then on it is a GET, or a HEAD, without one. So of any
      two requests the later one descends from the earlier one. */
  lemma MethodAndBodyAlongRun(first: Request, o: Options, turns: Turns)
    ensures AllRewritten(Run(Start(first), o, turns, 0).state.log, first)
    ensures AllDescend(Run(Start(first), o, turns, 0).state.log.sent)
  {
    StartRunOk(first, o);
    RunEndsOk(Start(first), first, o, turns, 0);
    var z := Run(Start(first), o, turns, 0).state;
    AllDispatchesDescend(z, first);
    forall i | 0 <= i < |z.log.sent|
      ensures z.log.sent[i].hop <= |z.log.hops| && Rewritten(z.log.sent[i].request, first, z.log.hops[..z.log.sent[i].hop])
    {
      DispatchIsRewritten(z.log.sent[i], first, z.log.hops);
    }
  }

  predicate BodyAllowed(q: Request) { q.verb in ["GET", "HEAD"] ==> q.body == NoBody }

  ghost predicate AllBodiesAllowed(sent: seq<Dispatch>) {
    forall i :: 0 <= i < |sent| ==> BodyAllowed(sent[i].request)
  }

  lemma StandingBodyAllowed(q: Request, first: Request, hops: seq<Hop>)
    requires BodyAllowed(first) && StandsAt(q, first, hops)
    ensures BodyAllowed(q)
  {
    MethodChangesOnlyToGet(first.verb, hops);
  }

  /** Starting from a request the constructor accepts, no GET or HEAD request is ever sent with a body. */
  lemma NoBodyOnGetOrHead(first: Request, o: Options, turns: Turns)
    requires CreateRequest(first.url, first.verb, first.headers, first.body) == Some(first)
    ensures AllBodiesAllowed(Run(Start(first), o, turns, 0).state.log.sent)
  {
    StartRunOk(first, o);
    RunEndsOk(Start(first), first, o, turns, 0);
    var log := Run(Start(first), o, turns, 0).state.log;
    forall i | 0 <= i < |log.sent| ensures BodyAllowed(log.sent[i].request) {
      assert DispatchOk(log.sent[i], first, log.hops);
      StandingBodyAllowed(log.sent[i].request, first, log.hops[..log.sent[i].hop]);
    }
  }

  // ----- retries -----

  function CountTo(n: nat): seq<nat> { if n < 2 then [] else CountTo(n - 1) + [n] }

  lemma {:induction false} CountToIs(n: nat)
    ensures |CountTo(n)| == (if n < 2 then 0 else n - 1) && forall i :: 0 <= i < |CountTo(n)| ==> CountTo(n)[i] == i + 2
  {
    if n < 2 {
    } else {
      CountToIs(n - 1);
    }
  }

  /** A beforeRetry hook or a backoff throws after the decision to retry. */
  predicate Throws(calls: RetryCalls) { calls.hook.Some? || calls.backoff.Some? }

  predicate JudgeDecides(s: State, r: Response, t: Turn, o: Options) {
    && t.stats.None? && !(o.jar && t.persist.Some?) && !IsRedirect(r)
    && ShouldRetry(s, Some(r), None, t.inTry.verdict, o).Yes?
  }

  /** The try block decides to retry, and announces it. */
  predicate TryDecides(s: State, t: Turn, o: Options) {
    var x := Receive(s, t, o);
    x.Have? && JudgeDecides(x.state, x.response, t, o)
  }

  /** The catch clause decides to retry, and announces it. */
  predicate CatchDecides(s: State, e: Error, t: Turn, o: Options) {
    t.catchStats.None? && ShouldRetry(s, e.response, e.code, t.inCatch.verdict, o).Yes?
  }

  /** What a decision adds to the announcements. */
  function Told(s: State, decided: bool): seq<nat> { if decided then [s.attempt + 1] else [] }

  lemma JudgeTells(s: State, r: Response, t: Turn, o: Options)
    ensures var decided := JudgeDecides(s, r, t, o);
            var z := Judge(s, r, t, o);
            && z.state.log.retries == s.log.retries + Told(s, decided)
            && z.state.attempt == (if decided && z.Continue? then s.attempt + 1 else s.attempt)
            && (decided ==> if Throws(t.inTry) then z.Caught? else z.Continue?)
  {}

  lemma TryTells(s: State, t: Turn, o: Options)
    ensures var decided := TryDecides(s, t, o);
            var z := Try(s, t, o);
            && z.state.log.retries == s.log.retries + Told(s, decided)
            && z.state.attempt == (if decided && z.Continue? then s.attempt + 1 else s.attempt)
            && (decided ==> if Throws(t.inTry) then z.Caught? else z.Continue?)
  {
    ReceiveKeeps(s, t, o);
    var x := Receive(s, t, o);
    if x.Have? { JudgeTells(x.state, x.response, t, o); }
  }

  lemma CatchTells(s: State, e: Error, t: Turn, o: Options)
    ensures var decided := CatchDecides(s, e, t, o);
            var z := Catch(s, e, t, o);
            && z.state.log.retries == s.log.retries + Told(s, decided)
            && z.state.attempt == (if z.Loop? then s.attempt + 1 else s.attempt)
            && (z.Loop? <==> decided && !Throws(t.inCatch))
  {}

  predicate TurnCatchDecides(s: State, t: Turn, o: Options) {
    var x := Try(s, t, o);
    x.Caught? && CatchDecides(x.state, x.error, t, o)
  }

  lemma TurnTells(s: State, t: Turn, o: Options)
    ensures Iterate(s, t, o).state.log.retries ==
            s.log.retries + Told(s, TryDecides(s, t, o)) + Told(s, TurnCatchDecides(s, t, o))
  {
    TryTells(s, t, o);
    var x := Try(s, t, o);
    if x.Caught? { CatchTells(x.state, x.error, t, o); }
  }

  lemma TurnAttempts(s: State, t: Turn, o: Options)
    ensures var z := Iterate(s, t, o);
            z.Loop? ==>
              z.state.attempt == if TryDecides(s, t, o) || TurnCatchDecides(s, t, o) then s.attempt + 1 else s.attempt
  {
    TryTells(s, t, o);
    var x := Try(s, t, o);
    if x.Caught? { CatchTells(x.state, x.error, t, o); }
  }

  // How many announcements there are.

  /** How often a turn announces a retry that does not take place. */
  function Fumbles(s: State, t: Turn, o: Options): nat {
    (if TryDecides(s, t, o) && Throws(t.inTry) then 1 else 0) +
    (if TurnCatchDecides(s, t, o) && Throws(t.inCatch) then 1 else 0)
  }

  function RunFumbles(s: State, o: Options, turns: Turns, n: nat): nat
    decreases Budget(s, o)
  {
    TurnSpends(s, turns(n), o);
    Fumbles(s, turns(n), o) +
    if Iterate(s, turns(n), o).Loop? then RunFumbles(Iterate(s, turns(n), o).state, o, turns, n + 1) else 0
  }

  lemma TurnAnnounces(s: State, t: Turn, o: Options)
    ensures var z := Iterate(s, t, o).state;
            |z.log.retries| + s.attempt == |s.log.retries| + z.attempt + Fumbles(s, t, o)
  {
    TryTells(s, t, o);
    var x := Try(s, t, o);
    if x.Caught? { CatchTells(x.state, x.error, t, o); }
  }

  lemma {:induction false} RunAnnounces(s: State, o: Options, turns: Turns, n: nat)
    ensures var z := Run(s, o, turns, n).state;
            |z.log.retries| + s.attempt == |s.log.retries| + z.attempt + RunFumbles(s, o, turns, n)
    decreases Budget(s, o)
  {
    TurnSpends(s, turns(n), o);
    TurnAnnounces(s, turns(n), o);
    if !Iterate(s, turns(n), o).Loop? {
    } else {
      RunAnnounces(Iterate(s, turns(n), o).state, o, turns, n + 1);
    }
  }

  /** beforeRetry is called as often as a retry is made, exactly when no beforeRetry hook and no
      backoff throws; every throw is one call more. */
  lemma AnnouncementsAreRetries(first: Request, o: Options, turns: Turns)
    ensures var z := Run(Start(first), o, turns, 0).state;
            && |z.log.retries| == z.attempt - 1 + RunFumbles(Start(first), o, turns, 0)
            && z.attempt - 1 <= Positive(o.limit)
  {
    StartRunOk(first, o);
    RunEndsOk(Start(first), first, o, turns, 0);
    RunAnnounces(Start(first), o, turns, 0);
  }

  // Which attempts are announced.

  predicate CountsUp(retries: seq<nat>) { forall i :: 0 <= i < |retries| ==> retries[i] == i + 2 }

  /** The same attempt is announced by the try block and by the catch clause: the hook or the backoff
      of the first retry throws, and the catch clause retries what they threw. */
  predicate Repeats(s: State, t: Turn, o: Options) { TryDecides(s, t, o) && TurnCatchDecides(s, t, o) }

  predicate RunRepeats(s: State, o: Options, turns: Turns, n: nat)
    decreases Budget(s, o)
  {
    TurnSpends(s, turns(n), o);
    Repeats(s, turns(n), o) ||
    (Iterate(s, turns(n), o).Loop? && RunRepeats(Iterate(s, turns(n), o).state, o, turns, n + 1))
  }

  lemma {:induction false} RunKeepsTold(s: State, o: Options, turns: Turns, n: nat)
    ensures s.log.retries <= Run(s, o, turns, n).state.log.retries
    decreases Budget(s, o)
  {
    TurnSpends(s, turns(n), o);
    TurnTells(s, turns(n), o);
    if !Iterate(s, turns(n), o).Loop? {
    } else {
      RunKeepsTold(Iterate(s, turns(n), o).state, o, turns, n + 1);
    }
  }

  lemma RepeatSpoils(told: seq<nat>, attempt: nat, all: seq<nat>)
    requires attempt >= 1 && told == CountTo(attempt) && told + [attempt + 1] + [attempt + 1] <= all
    ensures !CountsUp(all)
  {
    CountToIs(attempt);
    assert (told + [attempt + 1] + [attempt + 1])[attempt] == attempt + 1;
  }

  /** One more announcement than the attempts so far. */
  lemma CountToNext(attempt: nat)
    requires attempt >= 1
    ensures CountTo(attempt) + [attempt + 1] == CountTo(attempt + 1)
    ensures CountsUp(CountTo(attempt)) && CountsUp(CountTo(attempt + 1))
  {
    CountToIs(attempt);
    CountToIs(attempt + 1);
  }

  /** At a loop head of a run without a repetition the announcements are those of the attempts so far. */
  predicate InStep(s: State) { s.attempt >= 1 && s.log.retries == CountTo(s.attempt) }

  lemma TurnCounts(s: State, t: Turn, o: Options)
    requires InStep(s) && !Repeats(s, t, o)
    ensures CountsUp(Iterate(s, t, o).state.log.retries)
    ensures Iterate(s, t, o).Loop? ==> InStep(Iterate(s, t, o).state)
  {
    TurnTells(s, t, o);
    TurnAttempts(s, t, o);
    CountToNext(s.attempt);
    var told, next := CountTo(s.attempt), CountTo(s.attempt + 1);
    assert told + [] + [] == told;
    assert told + [s.attempt + 1] + [] == next && told + [] + [s.attempt + 1] == next;
    assert Iterate(s, t, o).state.log.retries == if TryDecides(s, t, o) || TurnCatchDecides(s, t, o) then next else told;
  }

  lemma RepeatingRun(s: State, o: Options, turns: Turns, n: nat)
    requires InStep(s) && Repeats(s, turns(n), o)
    ensures !CountsUp(Run(s, o, turns, n).state.log.retries)
  {
    var z := Iterate(s, turns(n), o);
    TurnSpends(s, turns(n), o);
    TurnTells(s, turns(n), o);
    if z.Loop? { RunKeepsTold(z.state, o, turns, n + 1); }
    RepeatSpoils(s.log.retries, s.attempt, Run(s, o, turns, n).state.log.retries);
  }

  lemma {:induction false} RunCounts(s: State, o: Options, turns: Turns, n: nat)
    requires InStep(s)
    ensures CountsUp(Run(s, o, turns, n).state.log.retries) <==> !RunRepeats(s, o, turns, n)
    decreases Budget(s, o)
  {
    var z := Iterate(s, turns(n), o);
    TurnSpends(s, turns(n), o);
    if Repeats(s, turns(n), o) {
      RepeatingRun(s, o, turns, n);
    } else {
      TurnCounts(s, turns(n), o);
      if z.Loop? { RunCounts(z.state, o, turns, n + 1); }
    }
  }

  // No attempt beyond the limit is announced.

  ghost predicate ToldWithin(s: State, o: Options) {
    forall i :: 0 <= i < |s.log.retries| ==> 2 <= s.log.retries[i] <= 1 + Positive(o.limit)
  }

  lemma DecidedWithin(s: State, t: Turn, o: Options)
    ensures TryDecides(s, t, o) ==> s.attempt + 1 <= o.limit + 1
    ensures TurnCatchDecides(s, t, o) ==> s.attempt + 1 <= o.limit + 1
  {
    ReceiveKeeps(s, t, o);
    TryTells(s, t, o);
  }

  lemma TurnTellsWithin(s: State, t: Turn, o: Options)
    requires s.attempt >= 1 && ToldWithin(s, o)
    ensures ToldWithin(Iterate(s, t, o).state, o) && Iterate(s, t, o).state.attempt >= 1
  {
    TurnMoves(s, t, o);
    DecidedWithin(s, t, o);
    TurnTells(s, t, o);
  }

  lemma {:induction false} RunTellsWithin(s: State, o: Options, turns: Turns, n: nat)
    requires s.attempt >= 1 && ToldWithin(s, o)
    ensures ToldWithin(Run(s, o, turns, n).state, o)
    decreases Budget(s, o)
  {
    TurnSpends(s, turns(n), o);
    TurnTellsWithin(s, turns(n), o);
    if !Iterate(s, turns(n), o).Loop? {
    } else {
      RunTellsWithin(Iterate(s, turns(n), o).state, o, turns, n + 1);
    }
  }

  /** beforeRetry is given the attempts 2, 3, 4, ..., each once and in order, exactly when in no turn
      the try block decides to retry, its hook or backoff throws, and the catch clause decides to
      retry as well. In any case it is given no attempt beyond limit + 1. */
  lemma RetryAttemptsCountUp(first: Request, o: Options, turns: Turns)
    ensures var z := Run(Start(first), o, turns, 0).state;
            && ((forall i :: 0 <= i < |z.log.retries| ==> z.log.retries[i] == i + 2)
                <==> !RunRepeats(Start(first), o, turns, 0))
            && (forall i :: 0 <= i < |z.log.retries| ==> 2 <= z.log.retries[i] <= 1 + Positive(o.limit))
  {
    RunCounts(Start(first), o, turns, 0);
    RunTellsWithin(Start(first), o, turns, 0);
  }

  // ----- what is returned -----

  /** A response the loop may return: not a redirect to follow, allowed by its status, and, when no
      callback decides, not one that a retry is still left for. */
  predicate MayReturn(z: State, r: Response, o: Options) {
    if IsRedirect(r) then o.redirect.Manual?
    else
      StatusAllowed(r.status, o) &&
      (!o.asks && z.request.verb in o.retryVerbs && r.status in o.retryStatuses ==> z.attempt > o.limit)
  }

  predicate EndsWell(end: Outcome, o: Options) { end.Returned? ==> MayReturn(end.state, end.response, o) }

  lemma TurnReturns(s: State, t: Turn, o: Options)
    ensures EndsWell(Iterate(s, t, o), o)
  {
    var x := Receive(s, t, o);
    if x.Have? { JudgeReturns(x.state, x.response, t, o); }
    var y := Try(s, t, o);
    if y.Caught? { CatchMoves(y.state, y.error, t, o); }
  }

  lemma JudgeReturns(s: State, r: Response, t: Turn, o: Options)
    ensures Judge(s, r, t, o).Done? ==>
              Judge(s, r, t, o).response == r && Judge(s, r, t, o).state == s && MayReturn(s, r, o)
  {}

  lemma {:induction false} RunReturns(s: State, o: Options, turns: Turns, n: nat)
    ensures EndsWell(Run(s, o, turns, n), o)
    decreases Budget(s, o)
  {
    TurnSpends(s, turns(n), o);
    TurnReturns(s, turns(n), o);
    if !Iterate(s, turns(n), o).Loop? {
    } else {
      RunReturns(Iterate(s, turns(n), o).state, o, turns, n + 1);
    }
  }

  /** What `fetch` returns is never a redirect it should have followed, never has a status the
      options forbid, and is retryable only when the attempts are used up. */
  lemma ReturnedResponseIsFinal(first: Request, o: Options, turns: Turns)
    ensures EndsWell(Run(Start(first), o, turns, 0), o)
  {
    RunReturns(Start(first), o, turns, 0);
  }
}
