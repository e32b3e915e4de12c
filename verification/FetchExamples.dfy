/** Concrete runs on which the exceptions to the run theorems show: an attempt announced twice, and
    a response that is lost. */
module FetchExamples {
  import opened Basics
  import opened Redirects
  import opened Urls
  import opened RedirectChain
  import opened Fetch
  import opened FetchTheorems
  import opened FetchResponses

  const CALM := RetryCalls(Yes, None, None)

  /** A turn in which the server answers and no hook does anything. */
  function Answered(r: Response): Turn {
    Turn(false, Cookies(None), Proceed, [], Answer(r), [], None, None, [], None, CALM, None, None, CALM, Leaves)
  }

  const RESET := Error(Some("ECONNRESET"), None)

  /** Status 503, and the backoff of the retry throws. */
  const FUMBLED := Answered(Response(1, 503, NoLocation, [])).(inTry := RetryCalls(Yes, None, Some(RESET)))

  const ACCEPTED := Answered(Response(2, 200, NoLocation, []))

  /** One retry for GET, on status 503 and on ECONNRESET. */
  function OneRetry(parse: Parser): Options {
    Options(Follow, 20, 1, {"GET"}, {503}, {"ECONNRESET"}, false, false, None, false, parse)
  }

  function FumbledThenAccepted(): Turns { n => if n == 0 then FUMBLED else ACCEPTED }

  function Get(url: Url): Request { Request(url, "GET", [], NoBody) }

  /** The state after the first turn: dispatched once, the response cancelled, 2 announced twice. */
  function AfterFumble(url: Url): State {
    var s := Start(Get(url));
    s.(attempt := 2,
       log := Log([Dispatch(Get(url), 0)], multiset{} + multiset{1}, multiset{} + multiset{1}, [2, 2], [], []))
  }

  lemma FumbledTry(url: Url, parse: Parser)
    ensures var z := AfterFumble(url);
            Try(Start(Get(url)), FUMBLED, OneRetry(parse)) == Caught(z.(attempt := 1, log := z.log.(retries := [2])), RESET)
    ensures TryDecides(Start(Get(url)), FUMBLED, OneRetry(parse))
  {}

  lemma FumbledTurn(url: Url, parse: Parser)
    ensures Iterate(Start(Get(url)), FUMBLED, OneRetry(parse)) == Loop(AfterFumble(url))
    ensures Fumbles(Start(Get(url)), FUMBLED, OneRetry(parse)) == 1
  {
    FumbledTry(url, parse);
    var z := AfterFumble(url).(attempt := 1, log := AfterFumble(url).log.(retries := [2]));
    assert [2] + [2] == [2, 2];
    assert Catch(z, RESET, FUMBLED, OneRetry(parse)) == Loop(AfterFumble(url));
  }

  lemma AcceptedTurn(url: Url, parse: Parser)
    ensures var end := Iterate(AfterFumble(url), ACCEPTED, OneRetry(parse));
            end.Returned? && end.state.log.retries == [2, 2] && end.state.attempt == 2
    ensures Fumbles(AfterFumble(url), ACCEPTED, OneRetry(parse)) == 0
  {}

  /** When the backoff of a retry throws and the catch clause retries, beforeRetry is given the
      attempt 2 twice. */
  lemma AttemptAnnouncedTwice(url: Url, parse: Parser)
    ensures var s, o := Start(Get(url)), OneRetry(parse);
            && Run(s, o, FumbledThenAccepted(), 0).state.log.retries == [2, 2]
            && Run(s, o, FumbledThenAccepted(), 0).state.attempt == 2
            && RunFumbles(s, o, FumbledThenAccepted(), 0) == 1 && RunRepeats(s, o, FumbledThenAccepted(), 0)
  {
    var s, o, turns := Start(Get(url)), OneRetry(parse), FumbledThenAccepted();
    FumbledTurn(url, parse);
    AcceptedTurn(url, parse);
    assert turns(0) == FUMBLED && turns(1) == ACCEPTED;
    assert Run(s, o, turns, 0) == Run(AfterFumble(url), o, turns, 1);
    assert RunFumbles(s, o, turns, 0) == 1 + RunFumbles(AfterFumble(url), o, turns, 1);
  }

  /** Status 503, and the beforeRetry hook throws an error that is not retried. */
  const REFUSED := Answered(Response(1, 503, NoLocation, [])).(inTry := RetryCalls(Yes, Some(PLAIN), None))

  function AlwaysRefused(): Turns { n => REFUSED }

  lemma RefusedTurn(url: Url, parse: Parser)
    ensures var s, o := Start(Get(url)), OneRetry(parse);
            && Iterate(s, REFUSED, o).Threw? && Iterate(s, REFUSED, o).state.log.retries == [2]
            && Iterate(s, REFUSED, o).state.attempt == 1
            && Fumbles(s, REFUSED, o) == 1 && !Repeats(s, REFUSED, o)
  {
    var s, o := Start(Get(url)), OneRetry(parse);
    var z := Obtain(Sent(s, true), REFUSED.reply.response);
    assert Receive(s, REFUSED, o) == Have(z, REFUSED.reply.response);
    assert Try(s, REFUSED, o) == Caught(z.(log := z.log.(retries := [2])), PLAIN);
  }

  /** A throw alone does not spoil the count: here one retry is announced that is not made, and the
      announced attempts are still 2. */
  lemma AnnouncedButNotMade(url: Url, parse: Parser)
    ensures var s, o := Start(Get(url)), OneRetry(parse);
            && Run(s, o, AlwaysRefused(), 0).state.log.retries == [2] && Run(s, o, AlwaysRefused(), 0).state.attempt == 1
            && RunFumbles(s, o, AlwaysRefused(), 0) == 1 && !RunRepeats(s, o, AlwaysRefused(), 0)
  {
    RefusedTurn(url, parse);
    assert AlwaysRefused()(0) == REFUSED;
  }

  // ----- a lost response -----

  /** A redirect whose beforeRedirect hook throws. */
  function Stopped(to: Url): Turn {
    Answered(Response(1, 302, Resolved("/next", to), [])).(redirectHook := Some(PLAIN))
  }

  function AlwaysStopped(to: Url): Turns { n => Stopped(to) }

  /** The response is held when the hook throws; nobody cancels it and the error does not carry it. */
  lemma StoppedRedirectLosesResponse(url: Url, to: Url, parse: Parser)
    requires to != url && !HasCredentials(to)
    ensures var s, o := Start(Get(url)), OneRetry(parse);
            && RunLost(s, o, AlwaysStopped(to), 0, 1) == 1
            && !Conserves(Run(s, o, AlwaysStopped(to), 0), 1)
  {
    var s, o, turns := Start(Get(url)), OneRetry(parse), AlwaysStopped(to);
    StoppedTurn(url, to, parse);
    assert turns(0) == Stopped(to);
    assert Run(s, o, turns, 0) == Iterate(s, Stopped(to), o);
  }

  lemma StoppedTurn(url: Url, to: Url, parse: Parser)
    requires to != url && !HasCredentials(to)
    ensures var s, o := Start(Get(url)), OneRetry(parse);
            var end := Iterate(s, Stopped(to), o);
            && end.Threw? && end.seen == Some(PLAIN) && end.state.log.got[1] == 1 && end.state.log.cancelled[1] == 0
            && TurnLost(s, Stopped(to), o, 1) == 1
  {
    var s, o := Start(Get(url)), OneRetry(parse);
    var m := Sent(s, true);
    assert Receive(s, Stopped(to), o) == Have(Obtain(m, Stopped(to).reply.response), Stopped(to).reply.response);
  }

  /** A 200 on which validateStatus throws. */
  function AlwaysInvalid(): Turns { n => ACCEPTED.(validate := Some(PLAIN)) }

  function Validating(parse: Parser): Options { OneRetry(parse).(validateStatus := Some((status: nat) => true)) }

  lemma InvalidTurn(url: Url, parse: Parser)
    ensures var s, o, t := Start(Get(url)), Validating(parse), ACCEPTED.(validate := Some(PLAIN));
            var end := Iterate(s, t, o);
            && end.Threw? && end.error == PLAIN && end.state.log.got[2] == 1 && end.state.log.cancelled[2] == 0
            && TurnLost(s, t, o, 2) == 1
  {
    var s, o, t := Start(Get(url)), Validating(parse), ACCEPTED.(validate := Some(PLAIN));
    var z := Obtain(Sent(s, true), t.reply.response);
    assert Receive(s, t, o) == Have(z, t.reply.response);
    assert Try(s, t, o) == Caught(z, PLAIN);
  }

  /** validateStatus sees only the status; when it throws, nobody is left to release the response. */
  lemma ThrowingValidatorLosesResponse(url: Url, parse: Parser)
    ensures var s, o := Start(Get(url)), Validating(parse);
            RunLost(s, o, AlwaysInvalid(), 0, 2) == 1 && !Conserves(Run(s, o, AlwaysInvalid(), 0), 2)
  {
    InvalidTurn(url, parse);
    assert AlwaysInvalid()(0) == ACCEPTED.(validate := Some(PLAIN));
  }
}
