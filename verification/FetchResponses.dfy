/** Who releases the responses of a fetch: at the end of every run each response was cancelled by the
    pipeline, returned, carried by the final error, or lost at one of a few named places where a
    callback throws an error that does not carry it. */
module FetchResponses {
  import opened Basics
  import opened HeaderTable
  import opened Redirects
  import opened Urls
  import opened RedirectChain
  import opened Fetch
  import opened FetchTheorems

  /** The response with this identity was obtained `open` times more often than cancelled. */
  predicate Accounts(log: Log, id: nat, open: int) { log.got[id] == log.cancelled[id] + open }

  function One(r: Response, id: nat): nat { if r.id == id then 1 else 0 }

  function OfError(e: Error, id: nat): nat { if e.response.Some? then One(e.response.value, id) else 0 }

  lemma AskAccounts(s: State, t: Turn, id: nat, open: int)
    requires Accounts(s.log, id, open)
    ensures match AskServer(s, t)
            case Have(z, r) => Accounts(z.log, id, open + One(r, id))
            case Raised(z, _) => Accounts(z.log, id, open)
  {}

  lemma ExchangeAccounts(s: State, t: Turn, o: Options, id: nat, open: int)
    requires Accounts(s.log, id, open)
    ensures match Exchange(s, t, o)
            case Have(z, r) => Accounts(z.log, id, open + One(r, id))
            case Raised(z, _) => Accounts(z.log, id, open)
  {
    var s1 := Loaded(s, t, o);
    assert s1.log == s.log;
    AskAccounts(SetHeaders(s1, EditList(s1.request.headers, t.beforeEdits)), t, id, open);
  }

  /** A replacing hook releases what it replaces, and a throwing one the current response. */
  lemma {:induction false} RunAfterAccounts(s: State, current: Response, hooks: seq<AfterHook>, id: nat, open: int)
    requires Accounts(s.log, id, open + One(current, id))
    ensures match RunAfter(s, current, hooks)
            case Have(z, r) => Accounts(z.log, id, open + One(r, id))
            case Raised(z, _) => Accounts(z.log, id, open)
    decreases |hooks|
  {
    if hooks == [] {
    } else {
      match hooks[0]
      case AfterFails(_) =>
      case Keeps => RunAfterAccounts(s, current, hooks[1..], id, open);
      case Returns(r) =>
        if r.id == current.id {
          RunAfterAccounts(s, current, hooks[1..], id, open);
        } else {
          RunAfterAccounts(Cancel(Obtain(s, r), current), r, hooks[1..], id, open);
        }
    }
  }

  lemma ReceiveAccounts(s: State, t: Turn, o: Options, id: nat, open: int)
    requires Accounts(s.log, id, open)
    ensures match Receive(s, t, o)
            case Have(z, r) => Accounts(z.log, id, open + One(r, id))
            case Raised(z, _) => Accounts(z.log, id, open)
  {
    ExchangeAccounts(s, t, o, id, open);
    match Exchange(s, t, o)
    case Raised(_, _) =>
    case Have(s1, r) => RunAfterAccounts(s1, r, t.after, id, open);
  }

  // ----- throws, and what they carry -----

  predicate Carries(e: Error, r: Response) { e.response.Some? && e.response.value.id == r.id }

  /** A throw while r is held loses r, unless the error carries it. */
  function Lost(r: Response, e: Error, id: nat): nat { if Carries(e, r) then 0 else One(r, id) }

  /** The error of such a throw brings another response: one released or lost before, or a stranger. */
  function Brought(r: Response, e: Error, id: nat): nat { if Carries(e, r) then 0 else OfError(e, id) }

  /** What the redirect branch throws while it holds r: its Location does not resolve, or a
      beforeRedirect hook throws when the redirect would be followed. */
  function RedirectThrow(s: State, r: Response, t: Turn, o: Options): Option<Error>
    requires IsRedirect(r)
  {
    if !o.redirect.Follow? || |s.chain| >= o.maxRedirects then None
    else if r.location.Invalid? then Some(PLAIN)
    else if r.location.url in s.visited || CannotReplace(s, r) then None
    else t.redirectHook
  }

  /** What is thrown between the retry decision and the release of the response: by shouldRetry, or
      by a beforeRetry hook. */
  function RetryThrow(verdict: Verdict, calls: RetryCalls): Option<Error> {
    if verdict.VerdictFails? then Some(verdict.error) else if verdict.Yes? then calls.hook else None
  }

  function FinalThrow(s: State, r: Response, t: Turn, o: Options): Option<Error> {
    var verdict := ShouldRetry(s, Some(r), None, t.inTry.verdict, o);
    if verdict.No? then if o.validateStatus.Some? then t.validate else None
    else RetryThrow(verdict, t.inTry)
  }

  /** What the callbacks of the try block throw while the response is held. */
  function HeldThrow(s: State, r: Response, t: Turn, o: Options): Option<Error> {
    if t.stats.Some? then t.stats
    else if o.jar && t.persist.Some? then t.persist
    else if IsRedirect(r) then RedirectThrow(s, r, t, o)
    else FinalThrow(s, r, t, o)
  }

  /** What the backoff of the try block throws; the response is released by then. */
  function LateThrow(s: State, r: Response, t: Turn, o: Options): Option<Error> {
    if JudgeDecides(s, r, t, o) && t.inTry.hook.None? then t.inTry.backoff else None
  }

  function OfThrow(e: Option<Error>, id: nat): nat { if e.Some? then OfError(e.value, id) else 0 }

  function JudgeLost(s: State, r: Response, t: Turn, o: Options, id: nat): nat {
    var e := HeldThrow(s, r, t, o); if e.Some? then Lost(r, e.value, id) else 0
  }

  function JudgeBrought(s: State, r: Response, t: Turn, o: Options, id: nat): nat {
    var e := HeldThrow(s, r, t, o); if e.Some? then Brought(r, e.value, id) else OfThrow(LateThrow(s, r, t, o), id)
  }

  /** The response a judged turn leaves open. */
  function Open(x: Tried, id: nat): nat {
    match x
    case Continue(_) => 0
    case Done(_, r) => One(r, id)
    case Caught(_, e) => OfError(e, id)
  }

  lemma RedirectThrows(s: State, r: Response, t: Turn, o: Options)
    requires IsRedirect(r)
    ensures var e := RedirectThrow(s, r, t, o);
            var x := JudgeRedirect(s, r, t, o);
            e.Some? ==> x.Caught? && x.error == e.value && x.state.log.got == s.log.got && x.state.log.cancelled == s.log.cancelled
  {}

  lemma RedirectAccounts(s: State, r: Response, t: Turn, o: Options, id: nat, open: int)
    requires Accounts(s.log, id, open + One(r, id)) && IsRedirect(r) && RedirectThrow(s, r, t, o).None?
    ensures Accounts(JudgeRedirect(s, r, t, o).state.log, id, open + Open(JudgeRedirect(s, r, t, o), id))
  {}

  lemma FinalThrows(s: State, r: Response, t: Turn, o: Options)
    ensures var e := FinalThrow(s, r, t, o);
            var x := JudgeFinal(s, r, t, o);
            e.Some? ==> x.Caught? && x.error == e.value && x.state.log.got == s.log.got && x.state.log.cancelled == s.log.cancelled
  {}

  lemma FinalAccounts(s: State, r: Response, t: Turn, o: Options, id: nat, open: int)
    requires Accounts(s.log, id, open + One(r, id)) && FinalThrow(s, r, t, o).None?
    requires t.stats.None? && !(o.jar && t.persist.Some?) && !IsRedirect(r)
    ensures Accounts(JudgeFinal(s, r, t, o).state.log, id,
                     open + Open(JudgeFinal(s, r, t, o), id) - OfThrow(LateThrow(s, r, t, o), id))
  {}

  lemma HeldThrows(s: State, r: Response, t: Turn, o: Options)
    ensures var e := HeldThrow(s, r, t, o);
            var x := Judge(s, r, t, o);
            e.Some? ==> x.Caught? && x.error == e.value && x.state.log.got == s.log.got && x.state.log.cancelled == s.log.cancelled
  {
    if IsRedirect(r) { RedirectThrows(s, r, t, o); } else { FinalThrows(s, r, t, o); }
  }

  /** The try block accounts for its response: the loop goes on without it, or it is returned, or the
      error carries it, or it is lost to a throw; and what a throw brings is open as well. */
  lemma JudgeAccounts(s: State, r: Response, t: Turn, o: Options, id: nat, open: int)
    requires Accounts(s.log, id, open + One(r, id))
    ensures var x := Judge(s, r, t, o);
            Accounts(x.state.log, id, open + JudgeLost(s, r, t, o, id) + Open(x, id) - JudgeBrought(s, r, t, o, id))
  {
    HeldThrows(s, r, t, o);
    if HeldThrow(s, r, t, o).None? {
      if IsRedirect(r) { RedirectAccounts(s, r, t, o, id, open); } else { FinalAccounts(s, r, t, o, id, open); }
    }
  }

  /** Outside the judging of a response nothing is held when an error is raised. */
  function TryLost(s: State, t: Turn, o: Options, id: nat): nat {
    match Receive(s, t, o)
    case Raised(_, _) => 0
    case Have(s1, r) => JudgeLost(s1, r, t, o, id)
  }

  function TryBrought(s: State, t: Turn, o: Options, id: nat): nat {
    match Receive(s, t, o)
    case Raised(_, e) => OfError(e, id)
    case Have(s1, r) => JudgeBrought(s1, r, t, o, id)
  }

  lemma TryAccounts(s: State, t: Turn, o: Options, id: nat, open: int)
    requires Accounts(s.log, id, open)
    ensures var x := Try(s, t, o);
            Accounts(x.state.log, id, open + TryLost(s, t, o, id) + Open(x, id) - TryBrought(s, t, o, id))
  {
    ReceiveAccounts(s, t, o, id, open);
    match Receive(s, t, o)
    case Raised(_, _) =>
    case Have(s1, r) => JudgeAccounts(s1, r, t, o, id, open);
  }

  /** What the callbacks of the catch clause, beforeError included, throw while the response of the
      caught error is held. */
  function CatchThrow(s: State, e: Error, t: Turn, o: Options): Option<Error> {
    var verdict := ShouldRetry(s, e.response, e.code, t.inCatch.verdict, o);
    if t.catchStats.Some? then t.catchStats
    else if verdict.No? then
      match t.last
      case Leaves => None
      case Exchanges(e1) => Some(e1)
      case LastFails(e1) => Some(e1)
    else RetryThrow(verdict, t.inCatch)
  }

  /** What the backoff of the catch clause throws, after the release. */
  function CatchLate(s: State, e: Error, t: Turn, o: Options): Option<Error> {
    if CatchDecides(s, e, t, o) && t.inCatch.hook.None? then t.inCatch.backoff else None
  }

  function CatchLost(s: State, e: Error, t: Turn, o: Options, id: nat): nat {
    var e1 := CatchThrow(s, e, t, o);
    if e1.Some? && e.response.Some? then Lost(e.response.value, e1.value, id) else 0
  }

  function CatchBrought(s: State, e: Error, t: Turn, o: Options, id: nat): nat {
    var e1 := CatchThrow(s, e, t, o);
    if e1.None? then OfThrow(CatchLate(s, e, t, o), id)
    else if e.response.Some? then Brought(e.response.value, e1.value, id) else OfError(e1.value, id)
  }

  /** What the run ends with: the response returned, or the one the final error carries. */
  function Terminal(end: Outcome, id: nat): nat {
    match end
    case Loop(_) => 0
    case Returned(_, r) => One(r, id)
    case Threw(_, _, e) => OfError(e, id)
  }

  lemma CatchThrows(s: State, e: Error, t: Turn, o: Options)
    ensures var e1 := CatchThrow(s, e, t, o);
            var x := Catch(s, e, t, o);
            e1.Some? ==> x.Threw? && x.error == e1.value && x.state.log.got == s.log.got && x.state.log.cancelled == s.log.cancelled
  {}

  lemma CalmCatchAccounts(s: State, e: Error, t: Turn, o: Options, id: nat, open: int)
    requires Accounts(s.log, id, open + OfError(e, id)) && CatchThrow(s, e, t, o).None?
    ensures var x := Catch(s, e, t, o);
            Accounts(x.state.log, id, open + Terminal(x, id) - OfThrow(CatchLate(s, e, t, o), id))
  {}

  lemma CatchAccounts(s: State, e: Error, t: Turn, o: Options, id: nat, open: int)
    requires Accounts(s.log, id, open + OfError(e, id))
    ensures var x := Catch(s, e, t, o);
            Accounts(x.state.log, id, open + CatchLost(s, e, t, o, id) + Terminal(x, id) - CatchBrought(s, e, t, o, id))
  {
    CatchThrows(s, e, t, o);
    if CatchThrow(s, e, t, o).None? { CalmCatchAccounts(s, e, t, o, id, open); }
  }

  function TurnLost(s: State, t: Turn, o: Options, id: nat): nat {
    var x := Try(s, t, o);
    TryLost(s, t, o, id) + if x.Caught? then CatchLost(x.state, x.error, t, o, id) else 0
  }

  function TurnBrought(s: State, t: Turn, o: Options, id: nat): nat {
    var x := Try(s, t, o);
    TryBrought(s, t, o, id) + if x.Caught? then CatchBrought(x.state, x.error, t, o, id) else 0
  }

  lemma TurnAccounts(s: State, t: Turn, o: Options, id: nat, open: int)
    requires Accounts(s.log, id, open)
    ensures var end := Iterate(s, t, o);
            Accounts(end.state.log, id, open + TurnLost(s, t, o, id) + Terminal(end, id) - TurnBrought(s, t, o, id))
  {
    TryAccounts(s, t, o, id, open);
    var x := Try(s, t, o);
    if x.Caught? { CatchAccounts(x.state, x.error, t, o, id, open + TryLost(s, t, o, id) - TryBrought(s, t, o, id)); }
  }

  // ----- runs -----

  /** How often a run loses the response to a throw that does not carry it. */
  function RunLost(s: State, o: Options, turns: Turns, n: nat, id: nat): nat
    decreases Budget(s, o)
  {
    TurnSpends(s, turns(n), o);
    TurnLost(s, turns(n), o, id) +
    if Iterate(s, turns(n), o).Loop? then RunLost(Iterate(s, turns(n), o).state, o, turns, n + 1, id) else 0
  }

  /** How often an error that a callback throws brings the response while it is not the one held. */
  function RunBrought(s: State, o: Options, turns: Turns, n: nat, id: nat): nat
    decreases Budget(s, o)
  {
    TurnSpends(s, turns(n), o);
    TurnBrought(s, turns(n), o, id) +
    if Iterate(s, turns(n), o).Loop? then RunBrought(Iterate(s, turns(n), o).state, o, turns, n + 1, id) else 0
  }

  lemma {:induction false} RunAccounts(s: State, o: Options, turns: Turns, n: nat, id: nat, open: int)
    requires Accounts(s.log, id, open)
    ensures var end := Run(s, o, turns, n);
            Accounts(end.state.log, id, open + RunLost(s, o, turns, n, id) + Terminal(end, id) - RunBrought(s, o, turns, n, id))
    decreases Budget(s, o)
  {
    TurnSpends(s, turns(n), o);
    TurnAccounts(s, turns(n), o, id, open);
    var x := Iterate(s, turns(n), o);
    if !x.Loop? {
    } else {
      RunAccounts(x.state, o, turns, n + 1, id, open + TurnLost(s, turns(n), o, id) - TurnBrought(s, turns(n), o, id));
    }
  }

  /** The response was obtained as often as it was cancelled, plus once if the run ends with it. */
  predicate Conserves(end: Outcome, id: nat) { end.state.log.got[id] == end.state.log.cancelled[id] + Terminal(end, id) }

  /** Every response of a run, whatever the callbacks throw, was cancelled, or was lost to a throw, or
      is what the run ends with; so a run conserves a response exactly when it is brought by a later
      error as often as it is lost, and one that no error brings exactly when it is not lost. */
  lemma ResponsesAreConserved(first: Request, o: Options, turns: Turns, id: nat)
    ensures var s, end := Start(first), Run(Start(first), o, turns, 0);
            && end.state.log.got[id] + RunBrought(s, o, turns, 0, id) ==
               end.state.log.cancelled[id] + RunLost(s, o, turns, 0, id) + Terminal(end, id)
            && (Conserves(end, id) <==> RunLost(s, o, turns, 0, id) == RunBrought(s, o, turns, 0, id))
  {
    RunAccounts(Start(first), o, turns, 0, id, 0);
  }

  // ----- errors that bring nothing -----

  predicate Bare(e: Option<Error>) { e.Some? ==> e.value.response.None? }

  /** Errors of callbacks that are called while no response is held carry none. */
  predicate BareErrors(t: Turn) {
    && Bare(t.inTry.backoff) && Bare(t.inCatch.backoff)
    && (t.before.BeforeFails? ==> t.before.error.response.None?)
    && (t.jar.JarFails? ==> t.jar.error.response.None?)
    && (forall i :: 0 <= i < |t.after| ==> t.after[i].AfterFails? ==> t.after[i].error.response.None?)
  }

  lemma {:induction false} AfterErrorIsBare(s: State, current: Response, hooks: seq<AfterHook>)
    requires forall i :: 0 <= i < |hooks| ==> hooks[i].AfterFails? ==> hooks[i].error.response.None?
    ensures RunAfter(s, current, hooks).Raised? ==> RunAfter(s, current, hooks).error.response.None?
    decreases |hooks|
  {
    if hooks == [] {
    } else {
      match hooks[0]
      case AfterFails(_) =>
      case Keeps => AfterErrorIsBare(s, current, hooks[1..]);
      case Returns(r) =>
        AfterErrorIsBare(s, current, hooks[1..]);
        AfterErrorIsBare(Cancel(Obtain(s, r), current), r, hooks[1..]);
    }
  }

  lemma ReceiveErrorIsBare(s: State, t: Turn, o: Options)
    requires BareErrors(t)
    ensures Receive(s, t, o).Raised? ==> Receive(s, t, o).error.response.None?
  {
    var x := Exchange(s, t, o);
    if x.Have? { AfterErrorIsBare(x.state, x.response, t.after); }
  }

  // ----- runs in which no callback throws -----

  predicate ResolvedLocation(r: Response) { !r.location.Invalid? }

  /** No callback that sees a response throws, no beforeError hook exchanges the error, and every
      Location that arrives resolves. */
  predicate Quiet(t: Turn) {
    && t.stats.None? && t.persist.None? && t.redirectHook.None? && t.validate.None? && t.catchStats.None?
    && t.inTry.hook.None? && !t.inTry.verdict.VerdictFails?
    && t.inCatch.hook.None? && !t.inCatch.verdict.VerdictFails? && t.last.Leaves?
    && (t.before.ShortCircuit? ==> ResolvedLocation(t.before.response))
    && (t.reply.Answer? ==> ResolvedLocation(t.reply.response))
    && (forall i :: 0 <= i < |t.after| ==> t.after[i].Returns? ==> ResolvedLocation(t.after[i].response))
  }

  ghost predicate AllQuiet(turns: Turns) { forall n: nat :: Quiet(turns(n)) }

  ghost predicate AllBare(turns: Turns) { forall n: nat :: BareErrors(turns(n)) }

  lemma {:induction false} AfterResolves(s: State, current: Response, hooks: seq<AfterHook>)
    requires ResolvedLocation(current)
    requires forall i :: 0 <= i < |hooks| ==> hooks[i].Returns? ==> ResolvedLocation(hooks[i].response)
    ensures RunAfter(s, current, hooks).Have? ==> ResolvedLocation(RunAfter(s, current, hooks).response)
    decreases |hooks|
  {
    if hooks == [] {
    } else {
      match hooks[0]
      case AfterFails(_) =>
      case Keeps => AfterResolves(s, current, hooks[1..]);
      case Returns(r) =>
        AfterResolves(s, current, hooks[1..]);
        AfterResolves(Cancel(Obtain(s, r), current), r, hooks[1..]);
    }
  }

  lemma QuietJudgeThrowsNothing(s: State, r: Response, t: Turn, o: Options)
    requires Quiet(t) && ResolvedLocation(r)
    ensures HeldThrow(s, r, t, o).None?
  {}

  lemma QuietTryLosesNothing(s: State, t: Turn, o: Options, id: nat)
    requires Quiet(t)
    ensures TryLost(s, t, o, id) == 0
    ensures BareErrors(t) ==> TryBrought(s, t, o, id) == 0
  {
    var x := Exchange(s, t, o);
    if x.Have? { AfterResolves(x.state, x.response, t.after); }
    var y := Receive(s, t, o);
    if y.Have? { QuietJudgeThrowsNothing(y.state, y.response, t, o); }
    if BareErrors(t) { ReceiveErrorIsBare(s, t, o); }
  }

  lemma QuietCatchLosesNothing(s: State, e: Error, t: Turn, o: Options, id: nat)
    requires Quiet(t)
    ensures CatchLost(s, e, t, o, id) == 0
    ensures BareErrors(t) ==> CatchBrought(s, e, t, o, id) == 0
  {
    assert CatchThrow(s, e, t, o).None?;
  }

  lemma QuietTurnLosesNothing(s: State, t: Turn, o: Options, id: nat)
    requires Quiet(t)
    ensures TurnLost(s, t, o, id) == 0
    ensures BareErrors(t) ==> TurnBrought(s, t, o, id) == 0
  {
    QuietTryLosesNothing(s, t, o, id);
    var x := Try(s, t, o);
    if x.Caught? { QuietCatchLosesNothing(x.state, x.error, t, o, id); }
  }

  /** When callbacks do not throw and Locations resolve, no run loses a response. */
  lemma {:induction false} QuietRunLosesNothing(s: State, o: Options, turns: Turns, n: nat, id: nat)
    requires AllQuiet(turns)
    ensures RunLost(s, o, turns, n, id) == 0
    ensures AllBare(turns) ==> RunBrought(s, o, turns, n, id) == 0
    decreases Budget(s, o)
  {
    assert Quiet(turns(n)) && (AllBare(turns) ==> BareErrors(turns(n)));
    TurnSpends(s, turns(n), o);
    QuietTurnLosesNothing(s, turns(n), o, id);
    if !Iterate(s, turns(n), o).Loop? {
    } else {
      QuietRunLosesNothing(Iterate(s, turns(n), o).state, o, turns, n + 1, id);
    }
  }

  /** In such runs no response is outstanding at any loop head. */
  lemma {:induction false} HeadsAreBalanced(z: State, s: State, o: Options, turns: Turns, n: nat, id: nat)
    requires AtHead(z, s, o, turns, n) && Accounts(s.log, id, 0) && AllQuiet(turns) && AllBare(turns)
    ensures z.log.got[id] == z.log.cancelled[id]
    decreases Budget(s, o)
  {
    if z == s {
    } else {
      assert Quiet(turns(n)) && BareErrors(turns(n));
      TurnSpends(s, turns(n), o);
      TurnAccounts(s, turns(n), o, id, 0);
      QuietTurnLosesNothing(s, turns(n), o, id);
      HeadsAreBalanced(z, Iterate(s, turns(n), o).state, o, turns, n + 1, id);
    }
  }
}
