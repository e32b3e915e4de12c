/** src/http/pipeline/redirects.ts: what one redirect does to the method, the body, the headers
    and the referrer, and what a chain of redirects does to them.

    `parse` stands for the URL parser on header text. */
module Redirects {
  import opened Basics
  import opened HeaderTable
  import opened Urls

  // ----- the method and the body -----

  function RewriteMethod(verb: string, status: nat): (string, bool) {
    if status == 303 then (if verb == "HEAD" then "HEAD" else "GET", true)
    else if (status == 301 || status == 302) && verb == "POST" then ("GET", true)
    else (verb, false)
  }

  // ----- headers -----

  const CREDENTIALS := ["authorization", "cookie", "cookie2", "proxy-authorization"]

  lemma CredentialHeaders(key: string)
    ensures key in CREDENTIALS <==>
            key == "authorization" || key == "proxy-authorization" || key == "cookie" || key == "cookie2"
  {}

  /** Is a header with this key removed on the way from one URL to the next? */
  predicate Strips(key: string, from: Url, to: Url, dropped: bool) {
    || key == "host" || key == "content-length"
    || (dropped && key == "content-type")
    || (OriginOf(from) != OriginOf(to) && key in CREDENTIALS)
  }

  function StripCredentials(list: seq<Tuple>): seq<Tuple> {
    Without(Without(Without(Without(list, "authorization"), "cookie"), "cookie2"), "proxy-authorization")
  }

  function Strip(list: seq<Tuple>, from: Url, to: Url, dropped: bool): seq<Tuple> {
    var framed := Without(Without(list, "host"), "content-length");
    var typed := if dropped then Without(framed, "content-type") else framed;
    if OriginOf(from) != OriginOf(to) then StripCredentials(typed) else typed
  }

  lemma WithoutTwo(list: seq<Tuple>, a: string, b: string, key: string)
    ensures Values(Without(Without(list, a), b), key) == if key == a || key == b then [] else Values(list, key)
  {
    ValuesWithout(list, a, key);
    ValuesWithout(Without(list, a), b, key);
  }

  lemma WithoutFour(list: seq<Tuple>, a: string, b: string, c: string, d: string, key: string)
    ensures Values(Without(Without(Without(Without(list, a), b), c), d), key) ==
            if key == a || key == b || key == c || key == d then [] else Values(list, key)
  {
    WithoutTwo(list, a, b, key);
    WithoutTwo(Without(Without(list, a), b), c, d, key);
  }

  lemma StripCredentialsValues(list: seq<Tuple>, key: string)
    ensures Values(StripCredentials(list), key) == if key in CREDENTIALS then [] else Values(list, key)
  {
    WithoutFour(list, "authorization", "cookie", "cookie2", "proxy-authorization", key);
  }

  /** One redirect removes exactly the headers it must and leaves every other value alone. */
  lemma StripRemovesExactly(list: seq<Tuple>, from: Url, to: Url, dropped: bool, key: string)
    ensures Values(Strip(list, from, to, dropped), key) ==
            if Strips(key, from, to, dropped) then [] else Values(list, key)
  {
    var hostless := Without(list, "host");
    var framed := Without(hostless, "content-length");
    ValuesWithout(list, "host", key);
    ValuesWithout(hostless, "content-length", key);
    ValuesWithout(framed, "content-type", key);
    StripCredentialsValues(if dropped then Without(framed, "content-type") else framed, key);
  }

  lemma {:induction false} LowerIsLetterwise(s: string)
    ensures |Lower(s)| == |s|
    ensures forall i :: 0 <= i < |s| ==> Lower(s)[i] == LowerChar(s[i])
  {
    if s == [] {
    } else {
      LowerIsLetterwise(s[1..]);
    }
  }

  ghost predicate IsKey(s: string) { Trim(s) == s == Key(s) && s != "" }

  /** A name without spaces or capitals is its own key. */
  lemma PlainKey(s: string)
    requires s != "" && forall i :: 0 <= i < |s| ==> !IsSpace(s[i]) && LowerChar(s[i]) == s[i]
    ensures IsKey(s)
  {
    LowerIsLetterwise(s);
    assert Lower(s) == s;
  }

  lemma AuthorizationIsKey() ensures IsKey("authorization") { PlainKey("authorization"); }

  lemma CookieIsKey() ensures IsKey("cookie") { PlainKey("cookie"); }

  lemma Cookie2IsKey() ensures IsKey("cookie2") { PlainKey("cookie2"); }

  lemma ProxyAuthorizationIsKey() ensures IsKey("proxy-authorization") { PlainKey("proxy-authorization"); }

  lemma HostIsKey() ensures IsKey("host") { PlainKey("host"); }

  lemma ContentLengthIsKey() ensures IsKey("content-length") { PlainKey("content-length"); }

  lemma ContentTypeIsKey() ensures IsKey("content-type") { PlainKey("content-type"); }

  lemma KeysOfReferer()
    ensures IsKey("referer") && Key("Referer") == "referer" && Trim("Referer") == "Referer"
  {
    PlainKey("referer");
    LowerIsLetterwise("Referer");
    assert Lower("Referer") == "referer";
  }

  method DeleteKey(headers: Headers, key: string)
    requires headers.Valid() && IsKey(key)
    modifies headers
    ensures headers.Valid() && headers.entriesList == Without(old(headers.entriesList), key)
  {
    var _ := headers.Delete(key);
  }

  method DeleteCredentials(headers: Headers)
    requires headers.Valid()
    modifies headers
    ensures headers.Valid() && headers.entriesList == StripCredentials(old(headers.entriesList))
  {
    AuthorizationIsKey();
    CookieIsKey();
    Cookie2IsKey();
    ProxyAuthorizationIsKey();
    DeleteKey(headers, "authorization");
    DeleteKey(headers, "cookie");
    DeleteKey(headers, "cookie2");
    DeleteKey(headers, "proxy-authorization");
  }

  method StripRedirectSensitiveHeaders(headers: Headers, from: Url, to: Url, bodyDropped: bool)
    requires headers.Valid()
    modifies headers
    ensures headers.Valid() && headers.entriesList == Strip(old(headers.entriesList), from, to, bodyDropped)
  {
    HostIsKey();
    ContentLengthIsKey();
    ContentTypeIsKey();
    DeleteKey(headers, "host");
    DeleteKey(headers, "content-length");
    if bodyDropped { DeleteKey(headers, "content-type"); }
    if OriginOf(from) != OriginOf(to) { DeleteCredentials(headers); }
  }

  // ----- the referrer policy -----

  datatype Policy =
    | NoReferrer
    | NoReferrerWhenDowngrade
    | SameOrigin
    | OriginOnly
    | StrictOrigin
    | OriginWhenCrossOrigin
    | StrictOriginWhenCrossOrigin
    | UnsafeUrl

  const DEFAULT_REDIRECT_REFERRER_POLICY := StrictOriginWhenCrossOrigin

  function ParsePolicy(token: string): Option<Policy> {
    match Key(token)
    case "no-referrer" => Some(NoReferrer)
    case "no-referrer-when-downgrade" => Some(NoReferrerWhenDowngrade)
    case "same-origin" => Some(SameOrigin)
    case "origin" => Some(OriginOnly)
    case "strict-origin" => Some(StrictOrigin)
    case "origin-when-cross-origin" => Some(OriginWhenCrossOrigin)
    case "strict-origin-when-cross-origin" => Some(StrictOriginWhenCrossOrigin)
    case "unsafe-url" => Some(UnsafeUrl)
    case _ => None
  }

  /** The last token that names a policy decides. */
  function LastPolicy(tokens: seq<string>): Option<Policy> {
    if tokens == [] then None
    else if ParsePolicy(tokens[|tokens| - 1]).Some? then ParsePolicy(tokens[|tokens| - 1])
    else LastPolicy(tokens[..|tokens| - 1])
  }

  /** The last policy is that of the last token that names one; there is none if no token does. */
  lemma {:induction false} LastPolicyIsLast(tokens: seq<string>) returns (at: nat)
    ensures at <= |tokens| && forall i :: at < i < |tokens| ==> ParsePolicy(tokens[i]).None?
    ensures LastPolicy(tokens).Some? ==> at < |tokens| && ParsePolicy(tokens[at]) == LastPolicy(tokens)
    ensures LastPolicy(tokens).None? ==> forall i :: 0 <= i < |tokens| ==> ParsePolicy(tokens[i]).None?
    ensures LastPolicy(tokens).Some? <==> exists i :: 0 <= i < |tokens| && ParsePolicy(tokens[i]).Some?
    decreases |tokens|
  {
    hide ParsePolicy;
    if tokens == [] {
      at := 0;
    } else if ParsePolicy(tokens[|tokens| - 1]).Some? {
      at := |tokens| - 1;
    } else {
      at := LastPolicyIsLast(tokens[..|tokens| - 1]);
    }
  }

  function PolicyAfter(tokens: seq<string>, current: Policy): Policy {
    if LastPolicy(tokens).Some? then LastPolicy(tokens).value else current
  }

  method ResponseReferrerPolicy(tokens: seq<string>) returns (policy: Option<Policy>)
    ensures policy == LastPolicy(tokens)
  {
    policy := None;
    var n := 0;
    while n < |tokens|
      invariant n <= |tokens| && policy == LastPolicy(tokens[..n])
    {
      assert tokens[..n + 1][..n] == tokens[..n];
      var named := ParsePolicy(tokens[n]);
      if named.Some? { policy := named; }
      n := n + 1;
    }
    assert tokens[..n] == tokens;
  }

  /** How much of the referrer may be shown, least first. */
  datatype Detail = Absent | Bare | Full

  function Less(a: Detail, b: Detail): Detail {
    if a.Absent? || b.Absent? then Absent else if a.Bare? || b.Bare? then Bare else Full
  }

  predicate Downgrade(from: Url, to: Url) { from.scheme == "https" && to.scheme == "http" }

  /** What a policy allows for a referrer and a destination. */
  function Allowed(policy: Policy, referrer: Url, to: Url): Detail {
    var same := OriginOf(referrer) == OriginOf(to);
    match policy
    case NoReferrer => Absent
    case NoReferrerWhenDowngrade => if Downgrade(referrer, to) then Absent else Full
    case SameOrigin => if same then Full else Absent
    case OriginOnly => Bare
    case StrictOrigin => if Downgrade(referrer, to) then Absent else Bare
    case OriginWhenCrossOrigin => if same then Full else Bare
    case StrictOriginWhenCrossOrigin => if same then Full else if Downgrade(referrer, to) then Absent else Bare
    case UnsafeUrl => Full
  }

  /** The policy table, by what a policy hides: nothing is sent, or the whole URL is, exactly in these cases. */
  lemma PolicyTable(policy: Policy, referrer: Url, to: Url)
    ensures var same := OriginOf(referrer) == OriginOf(to);
            var insecure := referrer.scheme == "https" && to.scheme == "http";
            && (Allowed(policy, referrer, to).Absent? <==>
                  || policy.NoReferrer?
                  || (policy.SameOrigin? && !same)
                  || (insecure && (policy.NoReferrerWhenDowngrade? || policy.StrictOrigin?))
                  || (insecure && !same && policy.StrictOriginWhenCrossOrigin?))
            && (Allowed(policy, referrer, to).Full? <==>
                  || policy.UnsafeUrl?
                  || (policy.NoReferrerWhenDowngrade? && !insecure)
                  || (same && (policy.SameOrigin? || policy.OriginWhenCrossOrigin? || policy.StrictOriginWhenCrossOrigin?)))
  {}

  /** The names of the policies in a header. */
  function PolicyName(policy: Policy): string {
    match policy
    case NoReferrer => "no-referrer"
    case NoReferrerWhenDowngrade => "no-referrer-when-downgrade"
    case SameOrigin => "same-origin"
    case OriginOnly => "origin"
    case StrictOrigin => "strict-origin"
    case OriginWhenCrossOrigin => "origin-when-cross-origin"
    case StrictOriginWhenCrossOrigin => "strict-origin-when-cross-origin"
    case UnsafeUrl => "unsafe-url"
  }

  /** A token names at most the policy it is read as. */
  lemma ParsedPolicyIsNamed(token: string)
    ensures ParsePolicy(token).Some? ==> Key(token) == PolicyName(ParsePolicy(token).value)
  {}

  /** Names of different lengths differ; the two of the same length begin with different letters. */
  lemma NamesDiffer(p: Policy, q: Policy)
    requires PolicyName(p) == PolicyName(q)
    ensures p == q
  {
    assert |PolicyName(p)| == |PolicyName(q)| && PolicyName(p)[0] == PolicyName(q)[0];
  }

  lemma NamedIsRecognised(token: string, policy: Policy)
    requires Key(token) == PolicyName(policy)
    ensures ParsePolicy(token).Some?
  {}

  /** A token is read as a policy exactly when, trimmed and in lower case, it is its name. */
  lemma ParsesExactlyNames(token: string, policy: Policy)
    ensures ParsePolicy(token) == Some(policy) <==> Key(token) == PolicyName(policy)
  {
    ParsedPolicyIsNamed(token);
    if Key(token) == PolicyName(policy) {
      NamedIsRecognised(token, policy);
      NamesDiffer(policy, ParsePolicy(token).value);
    }
  }

  const MAX_REFERRER_LENGTH: nat := 4096

  function ToOrigin(u: Url): Url { u.(path := "/", query := "") }

  /** The referrer without credentials and fragment, and without path and query when too long. */
  function Clean(u: Url): Url {
    var bare := u.(username := "", password := "", fragment := "");
    if |Print(bare)| > MAX_REFERRER_LENGTH then ToOrigin(bare) else bare
  }

  /** What a referrer must not show: credentials, a fragment, or a path and query when the URL without
      the other two is longer than 4096 characters. Nothing else of `u` is changed. */
  predicate Discreet(shown: Url, u: Url) {
    && shown.username == "" && shown.password == "" && shown.fragment == ""
    && shown.scheme == u.scheme && shown.host == u.host && shown.port == u.port
    && ((shown.path == "/" && shown.query == "") || (shown.path == u.path && shown.query == u.query && |Print(shown)| <= 4096))
  }

  lemma CleanIsDiscreet(u: Url)
    ensures Discreet(Clean(u), u) && Discreet(ToOrigin(Clean(u)), u)
    ensures |Print(u.(username := "", password := "", fragment := ""))| <= 4096 ==>
              Clean(u).path == u.path && Clean(u).query == u.query
  {}

  /** The parser reads back what the pipeline may write for a referrer. */
  predicate ReadsBack(parse: Parser, u: Url) {
    && parse(Print(Clean(u))) == Some(Clean(u))
    && parse(Print(ToOrigin(Clean(u)))) == Some(ToOrigin(Clean(u)))
  }

  /** It does so for every http(s) URL it finds in a text. */
  ghost predicate RoundTrips(parse: Parser) {
    forall text: string :: parse(text).Some? && IsHttp(parse(text).value) ==> ReadsBack(parse, parse(text).value)
  }

  lemma CleanIsWellFormed(u: Url)
    requires WellFormed(u)
    ensures WellFormed(Clean(u)) && WellFormed(ToOrigin(Clean(u)))
  {}

  /** A parser that undoes printing on well-formed URLs reads the pipeline's referrers back. */
  lemma UndoingPrintRoundTrips(parse: Parser)
    requires UndoesPrint(parse)
    ensures RoundTrips(parse)
  {
    forall text: string | parse(text).Some? && IsHttp(parse(text).value) ensures ReadsBack(parse, parse(text).value) {
      CleanIsWellFormed(parse(text).value);
    }
  }

  /** There is such a parser, and it accepts every well-formed http(s) URL. */
  lemma SomeParserRoundTrips()
    ensures exists parse: Parser :: RoundTrips(parse) && UndoesPrint(parse)
  {
    SomeParserUndoesPrint();
    var parse: Parser :| UndoesPrint(parse);
    UndoingPrintRoundTrips(parse);
  }

  function Shown(u: Url, detail: Detail): Url { if detail.Bare? then ToOrigin(Clean(u)) else Clean(u) }

  datatype RefererChange = Keep | Remove | Write(text: string)

  /** What a redirect to `to` under `policy` does to a Referer text. */
  function ChangeReferer(text: Option<string>, parse: Parser, policy: Policy, to: Url): RefererChange {
    if text.None? || text.value == "" then Keep
    else
      var u := parse(text.value);
      if u.None? || !IsHttp(u.value) || Allowed(policy, u.value, to).Absent? then Remove
      else Write(Print(Shown(u.value, Allowed(policy, u.value, to))))
  }

  function ApplyChange(list: seq<Tuple>, change: RefererChange): seq<Tuple> {
    match change
    case Keep => list
    case Remove => Without(list, "referer")
    case Write(text) => Replaced(list, "Referer", text)
  }

  function AfterPolicy(list: seq<Tuple>, parse: Parser, policy: Policy, to: Url): seq<Tuple> {
    ApplyChange(list, ChangeReferer(Combined(list, "referer"), parse, policy, to))
  }

  /** What `parseReferrer` finds in a list. */
  function FoundReferrer(list: seq<Tuple>, parse: Parser): Option<Url> {
    var text := Combined(list, "referer");
    if text.None? || text.value == "" || parse(text.value).None? || !IsHttp(parse(text.value).value) then None
    else Some(Clean(parse(text.value).value))
  }

  /** The list after `parseReferrer`. */
  function AfterParse(list: seq<Tuple>, parse: Parser): seq<Tuple> {
    var text := Combined(list, "referer");
    if text.None? || text.value == "" || FoundReferrer(list, parse).Some? then list else Without(list, "referer")
  }

  /** `parseReferrer`: the cleaned referrer; a value that is not an http(s) URL is deleted. */
  method ParseReferrer(headers: Headers, parse: Parser) returns (referrer: Option<Url>)
    requires headers.Valid()
    modifies headers
    ensures headers.Valid()
    ensures referrer == FoundReferrer(old(headers.entriesList), parse)
    ensures headers.entriesList == AfterParse(old(headers.entriesList), parse)
  {
    KeysOfReferer();
    var _, value := headers.Get("referer");
    if value.None? || value.value == "" { return None; }
    var parsed := parse(value.value);
    if parsed.None? || !IsHttp(parsed.value) {
      DeleteKey(headers, "referer");
      return None;
    }
    var u := parsed.value.(username := "", password := "", fragment := "");
    if |Print(u)| > MAX_REFERRER_LENGTH { u := u.(path := "/", query := ""); }
    return Some(u);
  }

  /** The cases of the policy: whether to delete the header, and whether to strip it to its origin. */
  method JudgePolicy(policy: Policy, referrer: Url, to: Url) returns (remove: bool, stripToOrigin: bool)
    ensures Allowed(policy, referrer, to) == if remove then Absent else if stripToOrigin then Bare else Full
  {
    var sameOrigin := OriginOf(referrer) == OriginOf(to);
    var downgrade := referrer.scheme == "https" && to.scheme == "http";
    remove, stripToOrigin := false, false;
    match policy {
      case NoReferrer => remove := true;
      case NoReferrerWhenDowngrade => remove := downgrade;
      case SameOrigin => remove := !sameOrigin;
      case OriginOnly => stripToOrigin := true;
      case StrictOrigin => remove, stripToOrigin := downgrade, true;
      case OriginWhenCrossOrigin => stripToOrigin := !sameOrigin;
      case StrictOriginWhenCrossOrigin => remove, stripToOrigin := !sameOrigin && downgrade, !sameOrigin;
      case UnsafeUrl =>
    }
  }

  lemma CleanKeepsOrigin(policy: Policy, u: Url, to: Url)
    ensures Allowed(policy, Clean(u), to) == Allowed(policy, u, to)
  {}

  /** The list after a found referrer has been written under a policy. */
  function AfterWrite(list: seq<Tuple>, referrer: Url, policy: Policy, to: Url): seq<Tuple> {
    if Allowed(policy, referrer, to).Absent? then Without(list, "referer")
    else Replaced(list, "Referer", Print(if Allowed(policy, referrer, to).Bare? then ToOrigin(referrer) else referrer))
  }

  lemma PolicyBySteps(list: seq<Tuple>, parse: Parser, policy: Policy, to: Url)
    ensures AfterPolicy(list, parse, policy, to) ==
            var found := FoundReferrer(list, parse);
            if found.Some? then AfterWrite(list, found.value, policy, to) else AfterParse(list, parse)
    ensures FoundReferrer(list, parse).Some? ==> AfterParse(list, parse) == list
  {
    var text := Combined(list, "referer");
    if FoundReferrer(list, parse).Some? { CleanKeepsOrigin(policy, parse(text.value).value, to); }
  }

  method WriteReferrer(headers: Headers, referrer: Url, policy: Policy, to: Url)
    requires headers.Valid()
    modifies headers
    ensures headers.Valid()
    ensures headers.entriesList == AfterWrite(old(headers.entriesList), referrer, policy, to)
  {
    KeysOfReferer();
    var remove, stripToOrigin := JudgePolicy(policy, referrer, to);
    if remove {
      DeleteKey(headers, "referer");
      return;
    }
    var shown := referrer;
    if stripToOrigin { shown := shown.(path := "/", query := ""); }
    var _ := headers.Set("Referer", Print(shown));
  }

  method ApplyRedirectReferrerPolicy(headers: Headers, parse: Parser, tokens: seq<string>, to: Url, current: Policy)
      returns (policy: Policy)
    requires headers.Valid()
    modifies headers
    ensures headers.Valid()
    ensures policy == PolicyAfter(tokens, current)
    ensures headers.entriesList == AfterPolicy(old(headers.entriesList), parse, policy, to)
  {
    var own := ResponseReferrerPolicy(tokens);
    policy := if own.Some? then own.value else current;
    PolicyBySteps(headers.entriesList, parse, policy, to);
    var referrer := ParseReferrer(headers, parse);
    if referrer.Some? { WriteReferrer(headers, referrer.value, policy, to); }
  }
}
