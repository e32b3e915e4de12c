/** What a whole chain of redirects does to the URL, the method, the body, the headers and the
    Referer, stated over the list of hops and proved equal to applying the hops one by one. */
module RedirectChain {
  import opened Basics
  import opened HeaderTable
  import opened Urls
  import opened Redirects

  /** One followed redirect: the status, the target and the Referrer-Policy tokens seen since the
      hop before it. */
  datatype Hop = Hop(status: nat, to: Url, tokens: seq<string>)

  function UrlAfter(start: Url, hops: seq<Hop>): Url { if hops == [] then start else hops[|hops| - 1].to }

  function VerbAfter(verb: string, hops: seq<Hop>): string {
    if hops == [] then verb
    else RewriteMethod(VerbAfter(verb, hops[..|hops| - 1]), hops[|hops| - 1].status).0
  }

  /** Has some hop dropped the body? */
  predicate BodyDropped(verb: string, hops: seq<Hop>) {
    hops != [] &&
    (BodyDropped(verb, hops[..|hops| - 1]) ||
     RewriteMethod(VerbAfter(verb, hops[..|hops| - 1]), hops[|hops| - 1].status).1)
  }

  /** Along any chain the method changes only together with the loss of the body and only to GET;
      a request that lost its body is a GET or a HEAD. */
  lemma {:induction false} MethodChangesOnlyToGet(verb: string, hops: seq<Hop>)
    ensures VerbAfter(verb, hops) == verb || (VerbAfter(verb, hops) == "GET" && BodyDropped(verb, hops))
    ensures BodyDropped(verb, hops) ==> VerbAfter(verb, hops) == if verb == "HEAD" then "HEAD" else "GET"
    decreases |hops|
  {
    if hops == [] {
    } else {
      MethodChangesOnlyToGet(verb, hops[..|hops| - 1]);
    }
  }

  /** A redirect that drops the body of a request with this method. */
  predicate DropsBody(verb: string, status: nat) {
    status == 303 || (verb == "POST" && (status == 301 || status == 302))
  }

  /** The method and the body after a chain, from the first method and the statuses alone: the body is
      dropped exactly when some hop is a 303, or a 301 or 302 of a POST; the method is then GET, or HEAD
      for HEAD, and otherwise still the first one. */
  lemma {:induction false} MethodAlongChain(verb: string, hops: seq<Hop>)
    ensures BodyDropped(verb, hops) <==> exists i :: 0 <= i < |hops| && DropsBody(verb, hops[i].status)
    ensures VerbAfter(verb, hops) ==
            if BodyDropped(verb, hops) then (if verb == "HEAD" then "HEAD" else "GET") else verb
    decreases |hops|
  {
    if hops == [] {
    } else {
      var init, last := hops[..|hops| - 1], hops[|hops| - 1];
      MethodAlongChain(verb, init);
      if BodyDropped(verb, init) {
        var i :| 0 <= i < |init| && DropsBody(verb, init[i].status);
        assert DropsBody(verb, hops[i].status);
      } else if DropsBody(verb, last.status) {
        assert DropsBody(verb, hops[|hops| - 1].status);
      } else {
        forall i | 0 <= i < |hops| ensures !DropsBody(verb, hops[i].status) {
          if i < |init| { assert hops[i] == init[i]; }
        }
      }
    }
  }

  /** A chain in two parts: the second part starts from the method the first one left. */
  lemma {:induction false} ChainsCompose(verb: string, first: seq<Hop>, rest: seq<Hop>)
    ensures VerbAfter(verb, first + rest) == VerbAfter(VerbAfter(verb, first), rest)
    ensures BodyDropped(verb, first + rest) == (BodyDropped(verb, first) || BodyDropped(VerbAfter(verb, first), rest))
    decreases |rest|
  {
    if rest == [] {
      assert first + rest == first;
    } else {
      var init := rest[..|rest| - 1];
      ChainsCompose(verb, first, init);
      assert (first + rest)[..|first + rest| - 1] == first + init;
    }
  }

  // ----- headers along a chain -----

  /** Is a header with this key removed by some hop? */
  predicate StrippedBy(key: string, start: Url, verb: string, hops: seq<Hop>) {
    hops != [] &&
    var init, last := hops[..|hops| - 1], hops[|hops| - 1];
    || StrippedBy(key, start, verb, init)
    || Strips(key, UrlAfter(start, init), last.to, RewriteMethod(VerbAfter(verb, init), last.status).1)
  }

  /** Credentials survive exactly while every hop stays on the origin of the first request. */
  lemma {:induction false} CredentialsStayOnOrigin(key: string, start: Url, verb: string, hops: seq<Hop>)
    requires key in CREDENTIALS
    ensures !StrippedBy(key, start, verb, hops) <==>
            forall i :: 0 <= i < |hops| ==> OriginOf(hops[i].to) == OriginOf(start)
    decreases |hops|
  {
    if hops == [] {
    } else {
      var init, last := hops[..|hops| - 1], hops[|hops| - 1];
      CredentialsStayOnOrigin(key, start, verb, init);
      assert forall i :: 0 <= i < |init| ==> init[i] == hops[i];
      if init != [] { assert UrlAfter(start, init) == init[|init| - 1].to; }
    }
  }

  lemma FramingHeadersAreLost(key: string, start: Url, verb: string, hops: seq<Hop>)
    requires key == "host" || key == "content-length"
    ensures StrippedBy(key, start, verb, hops) <==> hops != []
  {}

  lemma {:induction false} ContentTypeFollowsBody(start: Url, verb: string, hops: seq<Hop>)
    ensures StrippedBy("content-type", start, verb, hops) <==> BodyDropped(verb, hops)
    decreases |hops|
  {
    if hops == [] {
    } else {
      ContentTypeFollowsBody(start, verb, hops[..|hops| - 1]);
    }
  }

  lemma {:induction false} OtherHeadersStay(key: string, start: Url, verb: string, hops: seq<Hop>)
    requires key !in CREDENTIALS && key !in ["host", "content-length", "content-type"]
    ensures !StrippedBy(key, start, verb, hops)
    decreases |hops|
  {
    if hops == [] {
    } else {
      OtherHeadersStay(key, start, verb, hops[..|hops| - 1]);
    }
  }

  // ----- the policy in force -----

  function Tokens(hops: seq<Hop>): seq<string> {
    if hops == [] then [] else Tokens(hops[..|hops| - 1]) + hops[|hops| - 1].tokens
  }

  /** The last recognised token of all responses so far, or the default. */
  function PolicyInForce(hops: seq<Hop>): Policy {
    PolicyAfter(Tokens(hops), DEFAULT_REDIRECT_REFERRER_POLICY)
  }

  lemma {:induction false} PolicyAfterAppend(before: seq<string>, tokens: seq<string>, current: Policy)
    ensures PolicyAfter(before + tokens, current) == PolicyAfter(tokens, PolicyAfter(before, current))
    decreases |tokens|
  {
    if tokens == [] {
      assert before + tokens == before;
    } else {
      PolicyAfterAppend(before, tokens[..|tokens| - 1], current);
      assert (before + tokens)[..|before + tokens| - 1] == before + tokens[..|tokens| - 1];
    }
  }

  /** Unless some response names a policy, strict-origin-when-cross-origin is in force. */
  lemma UnnamedPolicyIsStrict(hops: seq<Hop>)
    requires forall i :: 0 <= i < |Tokens(hops)| ==> ParsePolicy(Tokens(hops)[i]).None?
    ensures PolicyInForce(hops) == StrictOriginWhenCrossOrigin
  {
    var _ := LastPolicyIsLast(Tokens(hops));
  }

  lemma PolicyStep(hops: seq<Hop>, hop: Hop)
    ensures PolicyInForce(hops + [hop]) == PolicyAfter(hop.tokens, PolicyInForce(hops))
  {
    PolicyAfterAppend(Tokens(hops), hop.tokens, DEFAULT_REDIRECT_REFERRER_POLICY);
    assert (hops + [hop])[..|hops|] == hops;
  }

  // ----- the Referer along a chain -----

  /** The detail the policy in force at one hop of a chain allows there. */
  function AllowedAt(u: Url, hops: seq<Hop>, i: nat): Detail
    requires i < |hops|
  {
    Allowed(PolicyInForce(hops[..i + 1]), u, hops[i].to)
  }

  function LeastDetail(u: Url, hops: seq<Hop>): Detail {
    if hops == [] then Full
    else Less(LeastDetail(u, hops[..|hops| - 1]), AllowedAt(u, hops, |hops| - 1))
  }

  function Rank(d: Detail): nat { match d case Absent => 0 case Bare => 1 case Full => 2 }

  /** LeastDetail is the minimum over the hops: no hop allows less, and, unless it is Full, some hop
      allows just that. */
  lemma {:induction false} LeastDetailIsMinimum(u: Url, hops: seq<Hop>, i: nat)
    requires i < |hops|
    ensures Rank(LeastDetail(u, hops)) <= Rank(AllowedAt(u, hops, i))
    decreases |hops|
  {
    if i == |hops| - 1 {
    } else {
      LeastDetailIsMinimum(u, hops[..|hops| - 1], i);
      assert hops[..|hops| - 1][..i + 1] == hops[..i + 1];
    }
  }

  lemma {:induction false} LeastDetailIsAllowed(u: Url, hops: seq<Hop>) returns (i: nat)
    requires !LeastDetail(u, hops).Full?
    ensures i < |hops| && AllowedAt(u, hops, i) == LeastDetail(u, hops)
    decreases |hops|
  {
    var init := hops[..|hops| - 1];
    if AllowedAt(u, hops, |hops| - 1) == LeastDetail(u, hops) {
      i := |hops| - 1;
    } else {
      i := LeastDetailIsAllowed(u, init);
      assert init[..i + 1] == hops[..i + 1];
    }
  }

  /** The Referer of a request after some hops, from the Referer of the first request. */
  function RefererAfter(first: Option<string>, parse: Parser, hops: seq<Hop>): Option<string> {
    if hops == [] || first.None? || first.value == "" then first
    else
      var u := parse(first.value);
      if u.None? || !IsHttp(u.value) || LeastDetail(u.value, hops).Absent? then None
      else Some(Print(Shown(u.value, LeastDetail(u.value, hops))))
  }

  /** After a hop a Referer that was an http(s) URL is gone, or shows a discreet part of that URL: only its
      origin as soon as some hop allowed no more. */
  lemma RefererIsDiscreet(first: string, u: Url, parse: Parser, hops: seq<Hop>)
    requires hops != [] && first != "" && parse(first) == Some(u) && IsHttp(u)
    ensures RefererAfter(Some(first), parse, hops).Some? ==>
              exists shown: Url :: Discreet(shown, u) && RefererAfter(Some(first), parse, hops) == Some(Print(shown))
    ensures LeastDetail(u, hops).Bare? ==>
              exists shown: Url :: Discreet(shown, u) && shown.path == "/" && shown.query == "" &&
                                   RefererAfter(Some(first), parse, hops) == Some(Print(shown))
  {
    hide IsHttp, LeastDetail;
    CleanIsDiscreet(u);
    var shown := Shown(u, LeastDetail(u, hops));
    assert Discreet(shown, u);
  }

  /** Showing less of what is shown is showing the lesser of the two: detail never returns. */
  lemma ShownTwice(u: Url, once: Detail, again: Detail)
    ensures Shown(Shown(u, once), again) == Shown(u, if once.Bare? then Bare else again)
  {}

  lemma ShownKeepsOrigin(policy: Policy, u: Url, detail: Detail, to: Url)
    ensures IsHttp(Shown(u, detail)) == IsHttp(u)
    ensures Allowed(policy, Shown(u, detail), to) == Allowed(policy, u, to)
  {}

  lemma PrintIsNotBlank(u: Url)
    ensures Print(u) != ""
  {}

  lemma CombinedReplaced(list: seq<Tuple>, text: string)
    ensures Combined(Replaced(list, "Referer", text), "referer") == Some(text)
    ensures Combined(Without(list, "referer"), "referer") == None
  {
    KeysOfReferer();
    LookupReplaced(list, "Referer", text, "referer");
    LookupWithout(list, "referer", "referer");
  }

  /** The list shows what is left of the first Referer after the hops. */
  predicate Shows(list: seq<Tuple>, first: Option<string>, parse: Parser, hops: seq<Hop>) {
    Combined(list, "referer") == RefererAfter(first, parse, hops)
  }

  lemma LeastDetailStep(u: Url, hops: seq<Hop>, hop: Hop)
    ensures LeastDetail(u, hops + [hop]) == Less(LeastDetail(u, hops), Allowed(PolicyInForce(hops + [hop]), u, hop.to))
  {
    assert (hops + [hop])[..|hops|] == hops && (hops + [hop])[..|hops| + 1] == hops + [hop];
  }

  lemma CombinedChanged(list: seq<Tuple>, change: RefererChange)
    ensures Combined(ApplyChange(list, change), "referer") ==
            match change
            case Keep => Combined(list, "referer")
            case Remove => None
            case Write(text) => Some(text)
  {
    CombinedReplaced(list, if change.Write? then change.text else "");
  }

  lemma ChangeOfReferer(text: string, parse: Parser, policy: Policy, u: Url, to: Url)
    requires text != "" && parse(text) == Some(u) && IsHttp(u)
    ensures var least := Allowed(policy, u, to);
            ChangeReferer(Some(text), parse, policy, to) == if least.Absent? then Remove else Write(Print(Shown(u, least)))
  {}

  lemma FirstReferer(list: seq<Tuple>, parse: Parser, policy: Policy, u: Url, to: Url)
    requires Combined(list, "referer").Some? && Combined(list, "referer").value != ""
    requires parse(Combined(list, "referer").value) == Some(u) && IsHttp(u)
    ensures var least := Allowed(policy, u, to);
            Combined(AfterPolicy(list, parse, policy, to), "referer") ==
            if least.Absent? then None else Some(Print(Shown(u, least)))
  {
    var text := Combined(list, "referer").value;
    ChangeOfReferer(text, parse, policy, u, to);
    CombinedChanged(list, ChangeReferer(Some(text), parse, policy, to));
  }

  lemma UselessReferer(list: seq<Tuple>, parse: Parser, policy: Policy, to: Url)
    requires var text := Combined(list, "referer");
             text.Some? ==> text.value == "" || parse(text.value).None? || !IsHttp(parse(text.value).value)
    ensures var text := Combined(list, "referer");
            Combined(AfterPolicy(list, parse, policy, to), "referer") == if text == Some("") then text else None
  {
    CombinedReplaced(list, "");
  }

  /** Applying the policy to the referrer that is left gives what the whole chain allows. */
  lemma NoHopShowsAll(u: Url)
    ensures LeastDetail(u, []) == Full
  {}

  lemma FoundReadsBack(parse: Parser, text: string)
    requires RoundTrips(parse) && parse(text).Some? && IsHttp(parse(text).value)
    ensures ReadsBack(parse, parse(text).value)
  {}

  lemma RefererStep(list: seq<Tuple>, first: Option<string>, parse: Parser, hops: seq<Hop>, hop: Hop)
    requires RoundTrips(parse) && Shows(list, first, parse, hops)
    ensures Shows(AfterPolicy(list, parse, PolicyInForce(hops + [hop]), hop.to), first, parse, hops + [hop])
  {
    hide RoundTrips, ReadsBack, IsHttp, PolicyInForce, AfterPolicy, LeastDetail;
    var policy := PolicyInForce(hops + [hop]);
    if first.None? || first.value == "" || parse(first.value).None? || !IsHttp(parse(first.value).value) {
      UselessReferer(list, parse, policy, hop.to);
    } else {
      var u := parse(first.value).value;
      FoundReadsBack(parse, first.value);
      LeastDetailStep(u, hops, hop);
      if hops == [] {
        NoHopShowsAll(u);
        FirstReferer(list, parse, policy, u, hop.to);
      } else if LeastDetail(u, hops).Absent? {
        UselessReferer(list, parse, policy, hop.to);
      } else {
        LaterReferer(list, parse, policy, u, LeastDetail(u, hops), hop.to);
      }
    }
  }

  lemma LaterReferer(list: seq<Tuple>, parse: Parser, policy: Policy, u: Url, detail: Detail, to: Url)
    requires ReadsBack(parse, u) && IsHttp(u) && !detail.Absent?
    requires Combined(list, "referer") == Some(Print(Shown(u, detail)))
    ensures var least := Less(detail, Allowed(policy, u, to));
            Combined(AfterPolicy(list, parse, policy, to), "referer") ==
            if least.Absent? then None else Some(Print(Shown(u, least)))
  {
    var shown := Shown(u, detail);
    ShownReadsBack(parse, u, detail);
    ShownKeepsOrigin(policy, u, detail, to);
    PrintIsNotBlank(shown);
    FirstReferer(list, parse, policy, shown, to);
    ShownTwice(u, detail, Allowed(policy, u, to));
  }

  lemma ShownReadsBack(parse: Parser, u: Url, detail: Detail)
    requires ReadsBack(parse, u)
    ensures parse(Print(Shown(u, detail))) == Some(Shown(u, detail))
  {}

  lemma ChangeTouchesOnlyReferer(list: seq<Tuple>, change: RefererChange, key: string)
    requires key != "referer"
    ensures Values(ApplyChange(list, change), key) == Values(list, key)
  {
    KeysOfReferer();
    match change
    case Keep =>
    case Remove => LookupWithout(list, "referer", key);
    case Write(text) => LookupReplaced(list, "Referer", text, key);
  }

  /** Applying the policy changes no header but the Referer. */
  lemma PolicyTouchesOnlyReferer(list: seq<Tuple>, parse: Parser, policy: Policy, to: Url, key: string)
    requires key != "referer"
    ensures Values(AfterPolicy(list, parse, policy, to), key) == Values(list, key)
  {
    ChangeTouchesOnlyReferer(list, ChangeReferer(Combined(list, "referer"), parse, policy, to), key);
  }
}
