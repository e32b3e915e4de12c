/** URLs as structured values, their serialisation, and what a parser on text is taken to do. */
module Urls {
  import opened Basics

  datatype Url = Url(
    scheme: string,
    username: string,
    password: string,
    host: string,
    port: string,
    path: string,
    query: string,
    fragment: string
  )

  datatype Origin = Tuple(scheme: string, host: string, port: string) | Opaque

  function OriginOf(u: Url): Origin {
    if u.scheme in ["http", "https", "ftp", "ws", "wss"] then Origin.Tuple(u.scheme, u.host, u.port) else Opaque
  }

  predicate IsHttp(u: Url) { u.scheme == "http" || u.scheme == "https" }

  predicate HasCredentials(u: Url) { u.username != "" || u.password != "" }

  /** Two http(s) URLs have the same origin exactly when scheme, host and port agree. */
  lemma OriginIsTriple(a: Url, b: Url)
    requires IsHttp(a) && IsHttp(b)
    ensures OriginOf(a) == OriginOf(b) <==> a.scheme == b.scheme && a.host == b.host && a.port == b.port
  {}

  function Marked(mark: char, part: string): string { if part == "" then "" else [mark] + part }

  function UserPart(u: Url): string { u.username + Marked(':', u.password) }

  function UserInfo(u: Url): string { if HasCredentials(u) then UserPart(u) + "@" else "" }

  function HostPort(u: Url): string { u.host + Marked(':', u.port) }

  /** Path, query and fragment; `query` and `fragment` include their mark. */
  function Tail(u: Url): string { u.path + (u.query + u.fragment) }

  /** The serialisation of an http or https URL. */
  function Print(u: Url): string { u.scheme + ("://" + ((UserInfo(u) + HostPort(u)) + Tail(u))) }

  // ----- well-formed URLs -----

  predicate Lacks(s: string, stops: string) { forall c :: c in s ==> c !in stops }

  /** Empty, or beginning with one of these characters. */
  predicate Begins(s: string, stops: string) { s == "" || s[0] in stops }

  /** A name or an IPv4 address, or an IPv6 address in brackets. */
  predicate WellFormedHost(host: string) {
    && host != "" && Lacks(host, "/?#@")
    && (if host[0] == '[' then |host| >= 2 && host[|host| - 1] == ']' && Lacks(host[1..|host| - 1], "]") else Lacks(host, ":"))
  }

  predicate WellFormed(u: Url) {
    && Lacks(u.scheme, ":")
    && Lacks(u.username, ":@/?#") && Lacks(u.password, "@/?#")
    && WellFormedHost(u.host) && Lacks(u.port, ":@/?#")
    && u.path != "" && u.path[0] == '/' && Lacks(u.path, "?#")
    && Begins(u.query, "?") && Lacks(u.query, "#")
    && Begins(u.fragment, "#")
  }

  lemma NotBefore(a: string, x: string, b: string, y: string, stops: string)
    requires Lacks(b, stops) && Begins(x, stops) && a + x == b + y
    ensures |b| <= |a|
  {
    assert forall i :: 0 <= i < |b| ==> (a + x)[i] == b[i] && b[i] in b;
    assert x != "" ==> (a + x)[|a|] == x[0];
    assert |a + x| == |b + y|;
  }

  /** Where the first of the stop characters is splits a text in only one way. */
  lemma FirstSplit(a: string, x: string, b: string, y: string, stops: string)
    requires Lacks(a, stops) && Lacks(b, stops) && Begins(x, stops) && Begins(y, stops) && a + x == b + y
    ensures a == b && x == y
  {
    NotBefore(a, x, b, y, stops);
    NotBefore(b, y, a, x, stops);
    assert a == (a + x)[..|a|] && b == (b + y)[..|b|];
    assert x == (a + x)[|a|..] && y == (b + y)[|b|..];
  }

  lemma SameMarked(mark: char, a: string, b: string)
    requires Marked(mark, a) == Marked(mark, b)
    ensures a == b
  {
    assert a != "" ==> Marked(mark, a)[1..] == a;
    assert b != "" ==> Marked(mark, b)[1..] == b;
  }

  lemma SameTail(u: Url, v: Url)
    requires WellFormed(u) && WellFormed(v) && Tail(u) == Tail(v)
    ensures u.path == v.path && u.query == v.query && u.fragment == v.fragment
  {
    FirstSplit(u.path, u.query + u.fragment, v.path, v.query + v.fragment, "?#");
    FirstSplit(u.query, u.fragment, v.query, v.fragment, "#");
  }

  predicate Bracketed(host: string) { host != "" && host[0] == '[' }

  function Inside(host: string): string
    requires |host| >= 2
  {
    host[1..|host| - 1]
  }

  lemma BracketedText(u: Url)
    requires WellFormed(u) && Bracketed(u.host)
    ensures HostPort(u)[1..] == Inside(u.host) + ("]" + Marked(':', u.port))
  {
    assert u.host == "[" + Inside(u.host) + "]";
  }

  lemma SameInside(a: string, b: string)
    requires WellFormedHost(a) && WellFormedHost(b) && Bracketed(a) && Bracketed(b) && Inside(a) == Inside(b)
    ensures a == b
  {
    assert a == "[" + Inside(a) + "]" && b == "[" + Inside(b) + "]";
  }

  lemma SameBracketed(u: Url, v: Url)
    requires WellFormed(u) && WellFormed(v) && Bracketed(u.host) && Bracketed(v.host) && HostPort(u) == HostPort(v)
    ensures u.host == v.host && Marked(':', u.port) == Marked(':', v.port)
  {
    BracketedText(u);
    BracketedText(v);
    var x, y := "]" + Marked(':', u.port), "]" + Marked(':', v.port);
    FirstSplit(Inside(u.host), x, Inside(v.host), y, "]");
    SameInside(u.host, v.host);
    assert x[1..] == Marked(':', u.port) && y[1..] == Marked(':', v.port);
  }

  lemma SameHostPort(u: Url, v: Url)
    requires WellFormed(u) && WellFormed(v) && HostPort(u) == HostPort(v)
    ensures u.host == v.host && u.port == v.port
  {
    assert u.host[0] == HostPort(u)[0] && v.host[0] == HostPort(v)[0];
    if Bracketed(u.host) {
      SameBracketed(u, v);
    } else {
      FirstSplit(u.host, Marked(':', u.port), v.host, Marked(':', v.port), ":");
    }
    SameMarked(':', u.port, v.port);
  }

  lemma HostPortLacks(u: Url)
    requires WellFormed(u)
    ensures Lacks(HostPort(u), "/?#@")
  {}

  lemma UserPartLacks(u: Url)
    requires WellFormed(u)
    ensures Lacks(UserPart(u), "@/?#")
  {}

  lemma CredentialsShow(u: Url)
    requires WellFormed(u)
    ensures HasCredentials(u) <==> '@' in UserInfo(u) + HostPort(u)
  {
    HostPortLacks(u);
    if HasCredentials(u) {
      assert (UserInfo(u) + HostPort(u))[|UserPart(u)|] == '@';
    } else {
      assert UserInfo(u) + HostPort(u) == HostPort(u);
    }
  }

  lemma SameAuthority(u: Url, v: Url)
    requires WellFormed(u) && WellFormed(v) && UserInfo(u) + HostPort(u) == UserInfo(v) + HostPort(v)
    ensures u.username == v.username && u.password == v.password && HostPort(u) == HostPort(v)
  {
    CredentialsShow(u);
    CredentialsShow(v);
    if HasCredentials(u) {
      SameUser(u, v);
    } else {
      assert UserInfo(u) + HostPort(u) == HostPort(u) && UserInfo(v) + HostPort(v) == HostPort(v);
    }
  }

  lemma SameUserPart(u: Url, v: Url)
    requires WellFormed(u) && WellFormed(v) && UserPart(u) == UserPart(v)
    ensures u.username == v.username && u.password == v.password
  {
    FirstSplit(u.username, Marked(':', u.password), v.username, Marked(':', v.password), ":");
    SameMarked(':', u.password, v.password);
  }

  lemma CredentialText(u: Url)
    requires HasCredentials(u)
    ensures UserInfo(u) + HostPort(u) == UserPart(u) + ("@" + HostPort(u))
  {}

  lemma SameUser(u: Url, v: Url)
    requires WellFormed(u) && WellFormed(v) && UserInfo(u) + HostPort(u) == UserInfo(v) + HostPort(v)
    requires HasCredentials(u) && HasCredentials(v)
    ensures u.username == v.username && u.password == v.password && HostPort(u) == HostPort(v)
  {
    UserPartLacks(u);
    UserPartLacks(v);
    CredentialText(u);
    CredentialText(v);
    var x, y := "@" + HostPort(u), "@" + HostPort(v);
    FirstSplit(UserPart(u), x, UserPart(v), y, "@");
    assert x[1..] == HostPort(u) && y[1..] == HostPort(v);
    SameUserPart(u, v);
  }

  lemma AuthorityLacks(u: Url)
    requires WellFormed(u)
    ensures Lacks(UserInfo(u) + HostPort(u), "/?#")
  {
    HostPortLacks(u);
    UserPartLacks(u);
  }

  /** Two well-formed URLs with the same text are the same URL. */
  lemma PrintIsInjective(u: Url, v: Url)
    requires WellFormed(u) && WellFormed(v) && Print(u) == Print(v)
    ensures u == v
  {
    var a, b := UserInfo(u) + HostPort(u), UserInfo(v) + HostPort(v);
    FirstSplit(u.scheme, "://" + (a + Tail(u)), v.scheme, "://" + (b + Tail(v)), ":");
    assert ("://" + (a + Tail(u)))[3..] == a + Tail(u) && ("://" + (b + Tail(v)))[3..] == b + Tail(v);
    AuthorityLacks(u);
    AuthorityLacks(v);
    FirstSplit(a, Tail(u), b, Tail(v), "/?#");
    SameTail(u, v);
    SameAuthority(u, v);
    SameHostPort(u, v);
  }

  // ----- parsers -----

  type Parser = string -> Option<Url>

  /** The parser reads back every well-formed http(s) URL, and only finds well-formed ones. */
  ghost predicate UndoesPrint(parse: Parser) {
    && (forall u: Url {:trigger Print(u)} :: IsHttp(u) && WellFormed(u) ==> parse(Print(u)) == Some(u))
    && (forall text: string :: parse(text).Some? && IsHttp(parse(text).value) ==> WellFormed(parse(text).value))
  }

  predicate PrintsAs(u: Url, text: string) { IsHttp(u) && WellFormed(u) && Print(u) == text }

  ghost function Unprint(text: string): Option<Url> {
    if exists u: Url :: PrintsAs(u, text) then
      var u: Url :| PrintsAs(u, text);
      Some(u)
    else None
  }

  lemma UnprintUndoes(u: Url)
    requires IsHttp(u) && WellFormed(u)
    ensures Unprint(Print(u)) == Some(u)
  {
    assert PrintsAs(u, Print(u));
    var v := Unprint(Print(u)).value;
    PrintIsInjective(u, v);
  }

  /** There is such a parser. */
  lemma SomeParserUndoesPrint()
    ensures exists parse: Parser :: UndoesPrint(parse)
  {
    var parse: Parser := text => Unprint(text);
    forall u: Url | IsHttp(u) && WellFormed(u) ensures parse(Print(u)) == Some(u) {
      UnprintUndoes(u);
    }
    assert UndoesPrint(parse);
  }
}
