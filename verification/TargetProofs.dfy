/** What normalisation means on `scheme://host[:port]/path` targets, against sections 6.2.2.1 and 6.2.3 of RFC 3986. */
module TargetProofs {
  import opened Options
  import opened Strings
  import opened Targets

  /** A target as it is written: `user` is the text before '@', the fragment the text behind '#'. */
  datatype Target = Target(
    scheme: string,
    user: Option<string>,
    host: string,
    port: Option<string>,
    path: string,
    query: Option<string>,
    fragment: Option<string>)

  predicate IsPathText(path: string) {
    && (path == "" || path[0] == '/')
    && IsBytes(path) && '#' !in path && '?' !in path && NoControl(path)
    && Unescape(path).Some?
  }

  predicate IsQueryText(query: string) {
    '#' !in query && NoControl(query)
  }

  /** Parts that can be written in front of each other and told apart again. */
  predicate AreParts(t: Target) {
    && IsScheme(t.scheme)
    && (t.user.Some? ==> ParseUser(t.user.value).Some?)
    && t.host != "" && (forall i :: 0 <= i < |t.host| ==> IsHostChar(t.host[i]) && t.host[i] != ':')
    && (t.port.Some? ==> IsDigits(t.port.value))
    && IsPathText(t.path)
    && (t.query.Some? ==> IsQueryText(t.query.value))
    && (t.fragment.Some? ==> Unescape(t.fragment.value).Some?)
  }

  predicate EndsInBlank(s: string) {
    s != "" && IsSpace(s[|s| - 1])
  }

  /** Such parts, with nothing at the end that trimming would take away. */
  predicate IsTarget(t: Target) {
    AreParts(t) && !EndsInBlank(Tail(t))
  }

  function PortText(port: Option<string>): string {
    if port.Some? then [':'] + port.value else ""
  }

  function Authority(t: Target): string {
    (if t.user.Some? then t.user.value + ['@'] else "") + (t.host + PortText(t.port))
  }

  function QueryText(query: Option<string>): string {
    if query.Some? then ['?'] + query.value else ""
  }

  function FragmentText(fragment: Option<string>): string {
    if fragment.Some? then ['#'] + fragment.value else ""
  }

  function Tail(t: Target): string {
    t.path + QueryText(t.query) + FragmentText(t.fragment)
  }

  function Text(t: Target): string {
    t.scheme + "://" + Authority(t) + Tail(t)
  }

  /** Who the target is for, decoded. */
  function UserOf(t: Target): Option<User> {
    if t.user.None? then None else ParseUser(t.user.value)
  }

  // ----- parsing gives the parts back -----

  lemma HostOfParts(t: Target)
    requires AreParts(t)
    ensures IsHost(t.host + PortText(t.port)) && '@' !in t.host + PortText(t.port)
  {
    if t.port.Some? {
      var authority := t.host + [':'] + t.port.value;
      assert ':' !in t.port.value;
      LastAt(t.host, ':', t.port.value);
      assert t.host + PortText(t.port) == authority && authority[|t.host| + 1..] == t.port.value;
    }
  }

  /** The authority comes apart at the last '@'. */
  lemma AuthorityApart(t: Target)
    requires AreParts(t)
    ensures HostPart(Authority(t)) == t.host + PortText(t.port) && UserPart(Authority(t)) == Some(UserOf(t))
  {
    hide IsHost, ParseUser, IsPathText, IsQueryText, IsScheme, IsHostChar;
    var host := t.host + PortText(t.port);
    HostOfParts(t);
    if t.user.Some? {
      LastAt(t.user.value, '@', host);
      assert Authority(t) == t.user.value + ['@'] + host;
      assert Authority(t)[|t.user.value| + 1..] == host && Authority(t)[..|t.user.value|] == t.user.value;
    } else {
      assert Authority(t) == host;
    }
  }

  lemma UserCharIsInert(c: char)
    requires IsUserChar(c)
    ensures c != '/' && c != '?' && c != '#' && !IsControl(c) && c as int < 256
  {}

  lemma UserCharsAreInert(text: string)
    requires ParseUser(text).Some?
    ensures forall i :: 0 <= i < |text| ==> text[i] != '/' && text[i] != '?' && text[i] != '#' && !IsControl(text[i])
    ensures IsBytes(text)
  {
    hide IsUserChar, IsControl, Unescape;
    forall i | 0 <= i < |text|
      ensures text[i] != '/' && text[i] != '?' && text[i] != '#' && !IsControl(text[i]) && text[i] as int < 256
    {
      UserCharIsInert(text[i]);
    }
  }

  lemma HostCharIsInert(c: char)
    requires IsHostChar(c)
    ensures c != '/' && c != '?' && c != '#' && c != '@' && !IsControl(c) && !IsSpace(c)
  {}

  lemma HostIsInert(host: string)
    requires IsHost(host)
    ensures forall i :: 0 <= i < |host| ==> host[i] != '/' && host[i] != '?' && host[i] != '#' && !IsControl(host[i])
    ensures !EndsInBlank(host)
  {
    hide IsHostChar, IsControl, IsSpace, IsDigits;
    forall i | 0 <= i < |host|
      ensures host[i] != '/' && host[i] != '?' && host[i] != '#' && !IsControl(host[i]) && !IsSpace(host[i])
    {
      HostCharIsInert(host[i]);
    }
  }

  /** Nothing in an authority ends it, and nothing in it is special to what comes before. */
  lemma AuthorityIsInert(t: Target)
    requires AreParts(t)
    ensures '/' !in Authority(t) && '?' !in Authority(t) && '#' !in Authority(t) && NoControl(Authority(t))
    ensures Authority(t) != "" && !EndsInBlank(Authority(t))
  {
    hide IsHost, ParseUser, IsPathText, IsQueryText, IsScheme, IsHostChar, IsBytes, IsControl, IsSpace;
    HostOfParts(t);
    var host := t.host + PortText(t.port);
    HostIsInert(host);
    assert host != "" && Authority(t)[|Authority(t)| - 1] == host[|host| - 1];
    if t.user.Some? {
      UserCharsAreInert(t.user.value);
      AtIsPlain();
      assert Authority(t) == t.user.value + ['@'] + host;
    } else {
      assert Authority(t) == host;
    }
  }

  lemma AtIsPlain()
    ensures !IsControl('@')
  {}

  lemma AuthorityEnds(authority: string, path: string)
    requires '/' !in authority && (path == "" || path[0] == '/')
    ensures Before(authority + path, '/') == authority && (authority + path)[|authority|..] == path
  {
    if path == "" {
      assert authority + path == authority;
    } else {
      assert authority + path == authority + ['/'] + path[1..];
      BeforeAt(authority, '/', path[1..]);
    }
  }

  /** The path as Parse keeps it beside the decoded one. */
  function RawPath(path: string): string
    requires Unescape(path).Some?
  {
    if Escape(Unescape(path).value) == path then "" else path
  }

  function Parsed(t: Target): URL
    requires AreParts(t)
  {
    URL(ToLower(t.scheme), t.host + PortText(t.port), Unescape(t.path).value, RawPath(t.path), t.query, UserOf(t))
  }

  lemma ParseAuthorityText(t: Target)
    requires AreParts(t)
    ensures ParseAuthority(ToLower(t.scheme), Authority(t) + t.path, t.query) == Some(Parsed(t))
  {
    hide IsHost, Unescape, Escape, HostPart, UserPart, NoControl, IsBytes, Before, ParseUser, Authority;
    HostOfParts(t);
    AuthorityApart(t);
    AuthorityIsInert(t);
    AuthorityEnds(Authority(t), t.path);
  }

  lemma QueryApart(hier: string, query: Option<string>)
    requires '?' !in hier
    ensures var rest := hier + QueryText(query);
            && Before(rest, '?') == hier
            && (if Index(rest, '?') >= 0 then Some(rest[Index(rest, '?') + 1..]) else None) == query
  {
    var rest := hier + QueryText(query);
    if query.Some? {
      assert rest == hier + ['?'] + query.value;
      BeforeAt(hier, '?', query.value);
      assert rest[|hier| + 1..] == query.value;
    } else {
      assert rest == hier;
    }
  }

  lemma HierHasNoQuery(authority: string, path: string)
    requires '?' !in authority && '?' !in path
    ensures '?' !in "//" + authority + path && ("//" + authority + path)[2..] == authority + path
  {
    assert "//" + authority + path == "//" + (authority + path);
  }

  lemma ParseRestText(t: Target)
    requires AreParts(t)
    ensures ParseRest(ToLower(t.scheme), "//" + Authority(t) + t.path + QueryText(t.query)) == Some(Parsed(t))
  {
    hide ParseAuthority, Unescape, Escape, ParseUser, Authority, Before, Index, QueryText, IsHostChar, Parsed;
    AuthorityIsInert(t);
    ParseAuthorityText(t);
    HierHasNoQuery(Authority(t), t.path);
    QueryApart("//" + Authority(t) + t.path, t.query);
  }

  lemma NotInEither(a: string, b: string, c: char)
    requires c !in a && c !in b
    ensures c !in a + b
  {}

  /** The text in front of the fragment. */
  function Body(t: Target): string {
    t.scheme + [':'] + ("//" + Authority(t) + t.path + QueryText(t.query))
  }

  lemma BodyIsInert(t: Target)
    requires AreParts(t)
    ensures '#' !in Body(t) && NoControl(Body(t))
  {
    hide Unescape, ParseUser, Authority, IsHostChar, IsUserChar;
    AuthorityIsInert(t);
    assert '#' !in t.scheme && NoControl(t.scheme);
    assert forall c :: c in t.path ==> c != '#' && !IsControl(c);
    assert forall c :: c in QueryText(t.query) ==> c != '#' && !IsControl(c);
    assert forall c :: c in t.scheme + [':'] ==> c != '#' && !IsControl(c);
    var rest := "//" + Authority(t) + t.path + QueryText(t.query);
    assert forall c :: c in rest ==> c != '#' && !IsControl(c);
  }

  lemma BodyThenFragment(t: Target)
    ensures Text(t) == Body(t) + FragmentText(t.fragment)
  {
    hide Authority;
    assert t.scheme + "://" == t.scheme + [':'] + "//";
  }

  lemma BodyParsed(t: Target)
    requires AreParts(t)
    ensures var body := Body(t);
            Index(body, ':') == |t.scheme| && body[..|t.scheme|] == t.scheme
            && ParseRest(ToLower(t.scheme), body[|t.scheme| + 1..]) == Some(Parsed(t))
  {
    hide Unescape, Authority, ParseRest, Parsed, IsHostChar, ParseUser, IsPathText, IsQueryText;
    var rest := "//" + Authority(t) + t.path + QueryText(t.query);
    assert ':' !in t.scheme;
    BeforeAt(t.scheme, ':', rest);
    assert Body(t)[|t.scheme| + 1..] == rest && Body(t)[..|t.scheme|] == t.scheme;
    ParseRestText(t);
  }

  lemma ParseText(t: Target)
    requires AreParts(t)
    ensures Parse(Text(t)) == Some(Parsed(t))
  {
    hide Unescape, ParseRest, Parsed, IsHostChar, Body, Text, ParseUser, IsPathText, IsQueryText, IsDigits, NoControl;
    BodyThenFragment(t);
    BodyIsInert(t);
    BodyParsed(t);
    if t.fragment.Some? {
      assert Text(t) == Body(t) + ['#'] + t.fragment.value;
      BeforeAt(Body(t), '#', t.fragment.value);
      assert Text(t)[|Body(t)| + 1..] == t.fragment.value;
    } else {
      assert Text(t) == Body(t);
    }
  }

  lemma TrimSpaceKeeps(a: string, b: string)
    requires a != "" && !IsSpace(a[0]) && !EndsInBlank(a) && !EndsInBlank(b)
    ensures TrimSpace(a + b) == a + b != ""
  {
    assert (a + b)[0] == a[0];
    if b == "" {
      assert a + b == a;
    } else {
      assert (a + b)[|a + b| - 1] == b[|b| - 1];
    }
  }

  lemma TextEnds(t: Target)
    requires IsTarget(t)
    ensures TrimSpace(Text(t)) == Text(t) != ""
  {
    hide Authority, Tail, Unescape;
    AuthorityIsInert(t);
    var front := t.scheme + "://" + Authority(t);
    assert front[0] == t.scheme[0] && front[|front| - 1] == Authority(t)[|Authority(t)| - 1];
    TrimSpaceKeeps(front, Tail(t));
  }

  // ----- the normal form -----

  function OutPath(path: string): string
    requires Unescape(path).Some?
  {
    var decoded := Unescape(path).value;
    EscapedPath(TrimSlashes(decoded), if Escape(decoded) == path then "" else path)
  }

  function DefaultPort(scheme: string): Option<string> {
    if scheme == "http" then Some("80") else if scheme == "https" then Some("443") else None
  }

  /** User information written out, its odd bytes escaped. */
  function LoginText(user: User): string {
    EscapeUser(user.name) + (if user.password.Some? then ":" + EscapeUser(user.password.value) else "")
  }

  function Normal(t: Target): Target
    requires AreParts(t)
  {
    var scheme, user := ToLower(t.scheme), UserOf(t);
    Target(scheme, if user.Some? then Some(LoginText(user.value)) else None, ToLower(t.host),
           if t.port == DefaultPort(scheme) then None else t.port, OutPath(t.path), t.query, None)
  }

  lemma PortSuffix(host: string, port: string, want: string)
    requires ':' !in host && IsDigits(port) && IsDigits(want)
    ensures HasSuffix(host + [':'] + port, [':'] + want) <==> port == want
  {
    var s, suffix := host + [':'] + port, [':'] + want;
    assert s[|host|] == ':';
    assert forall k :: |host| < k < |s| ==> s[k] == port[k - |host| - 1] && s[k] in port;
    assert forall k :: 0 <= k < |host| ==> s[k] == host[k] && s[k] in host;
    if HasSuffix(s, suffix) {
      assert s[|s| - |suffix|] == s[|s| - |suffix|..][0] == ':';
      assert s[|s| - |suffix|..][1..] == want;
      assert s[|host| + 1..] == port;
    }
    if port == want {
      assert s[|s| - |suffix|..] == suffix;
    }
  }

  lemma NoPortNoSuffix(host: string, want: string)
    requires ':' !in host
    ensures !HasSuffix(host, [':'] + want)
  {
    var suffix := [':'] + want;
    assert |suffix| <= |host| ==> host[|host| - |suffix|..][0] in host;
  }

  lemma DefaultPortDropped(scheme: string, host: string, port: Option<string>)
    requires ':' !in host && (port.Some? ==> IsDigits(port.value))
    ensures DropDefaultPort(scheme, host + PortText(port))
         == host + PortText(if port == DefaultPort(scheme) then None else port)
  {
    assert [':'] + "80" == ":80" && [':'] + "443" == ":443";
    if port.Some? {
      PortSuffix(host, port.value, "80");
      PortSuffix(host, port.value, "443");
      PortCut(host, port.value);
    } else {
      NoPortNoSuffix(host, "80");
      NoPortNoSuffix(host, "443");
    }
  }

  lemma PortCut(host: string, port: string)
    ensures host + PortText(Some(port)) == host + [':'] + port
    ensures (host + [':'] + port)[..|host|] == host == host + PortText(None)
  {}

  lemma LoweredAuthority(host: string, port: Option<string>)
    requires port.Some? ==> IsDigits(port.value)
    ensures ToLower(host + PortText(port)) == ToLower(host) + PortText(port)
  {
    if port.Some? {
      assert ToLower(PortText(port)) == PortText(port);
    }
    ToLowerConcat(host, PortText(port));
  }

  lemma RenderedParts(u: URL, host: string)
    requires DropDefaultPort(u.scheme, ToLower(u.host)) == host != ""
    ensures Rendered(u) == u.scheme + "://" + (UserText(u.user) + host)
                           + (EscapedPath(TrimSlashes(u.path), u.rawPath) + QueryText(u.query))
  {
    var path := EscapedPath(TrimSlashes(u.path), u.rawPath);
    assert u.scheme + ":" + ("//" + UserText(u.user) + host) == u.scheme + "://" + (UserText(u.user) + host);
    assert u.query.Some? ==> "?" + u.query.value == QueryText(u.query);
    assert u.scheme + ":" + ("//" + UserText(u.user) + host) + path + QueryText(u.query)
        == u.scheme + "://" + (UserText(u.user) + host) + (path + QueryText(u.query));
  }

  lemma NormalText(t: Target)
    requires AreParts(t)
    ensures var n := Normal(t);
            Text(n) == n.scheme + "://" + (UserText(UserOf(t)) + (n.host + PortText(n.port)))
                       + (n.path + QueryText(n.query))
  {
    hide OutPath, ParseUser, EscapeUser, ToLower, AreParts;
    var n := Normal(t);
    var user := UserOf(t);
    if user.Some? {
      assert LoginText(user.value) + ['@'] == UserText(user);
    }
    assert Tail(n) == n.path + QueryText(n.query);
  }

  lemma NormalizeText(t: Target)
    requires IsTarget(t)
    ensures NormalizeTarget(Text(t)) == Text(Normal(t))
  {
    hide Text, Parse, Rendered, DropDefaultPort, AreParts, Tail, EscapedPath, ParseUser, UserText, LoginText;
    TextEnds(t);
    ParseText(t);
    LoweredHost(t);
    NormalText(t);
    var n := Normal(t);
    RenderedParts(Parsed(t), n.host + PortText(n.port));
  }

  lemma LoweredHost(t: Target)
    requires AreParts(t)
    ensures var n := Normal(t);
            DropDefaultPort(n.scheme, ToLower(t.host + PortText(t.port))) == n.host + PortText(n.port)
    ensures Normal(t).host != ""
  {
    hide OutPath, ParseUser, LoginText, IsPathText, IsQueryText, DropDefaultPort;
    LoweredAuthority(t.host, t.port);
    ToLowerKeeps(t.host, ':');
    DefaultPortDropped(ToLower(t.scheme), ToLower(t.host), t.port);
  }

  // ----- user information -----

  lemma {:induction false} EscapeUserChars(text: string)
    requires IsBytes(text)
    ensures forall c :: c in EscapeUser(text) ==> IsUserChar(c) && c != ':'
    ensures Unescape(EscapeUser(text)) == Some(text)
  {
    hide IsUserChar, PlainInUser, HexEscape;
    if text != "" {
      assert text[0] in text && forall c :: c in text[1..] ==> c in text;
      EscapeUserChars(text[1..]);
      UserByte(text[0], EscapeUser(text[1..]));
      assert text == [text[0]] + text[1..];
    }
  }

  lemma UserByte(c: char, rest: string)
    requires c as int < 256 && Unescape(rest).Some?
    ensures var e := if PlainInUser(c) then [c] else HexEscape(c);
            && (forall i :: 0 <= i < |e| ==> IsUserChar(e[i]) && e[i] != ':')
            && Unescape(e + rest) == Some([c] + Unescape(rest).value)
  {
    var e := if PlainInUser(c) then [c] else HexEscape(c);
    assert (e + rest)[|e|..] == rest;
    if !PlainInUser(c) {
      HexPair(c);
      assert (e + rest)[1] == e[1] && (e + rest)[2] == e[2];
    }
  }

  /** Parsing undoes writing. */
  lemma LoginParses(user: User)
    requires IsBytes(user.name) && (user.password.Some? ==> IsBytes(user.password.value))
    ensures ParseUser(LoginText(user)) == Some(user)
  {
    hide Unescape, EscapeUser, IsUserChar, IsBytes;
    var name := EscapeUser(user.name);
    EscapeUserChars(user.name);
    assert IsUserChar(':') by { ColonIsUserChar(); }
    if user.password.Some? {
      var password := EscapeUser(user.password.value);
      EscapeUserChars(user.password.value);
      assert LoginText(user) == name + [':'] + password;
      BeforeAt(name, ':', password);
      assert LoginText(user)[|name| + 1..] == password;
    } else {
      assert LoginText(user) == name;
    }
  }

  lemma ColonIsUserChar()
    ensures IsUserChar(':')
  {}

  lemma ParsedBytes(text: string)
    requires ParseUser(text).Some?
    ensures var user := ParseUser(text).value;
            IsBytes(user.name) && (user.password.Some? ==> IsBytes(user.password.value))
  {
    hide Unescape, IsUserChar, IsControl;
    UserCharsAreInert(text);
    assert forall c :: c in Before(text, ':') ==> c in text;
    UnescapedBytes(Before(text, ':'));
    if Index(text, ':') >= 0 {
      var rest := text[Index(text, ':') + 1..];
      assert forall c :: c in rest ==> c in text;
      UnescapedBytes(rest);
    }
  }

  lemma NormalUser(t: Target)
    requires AreParts(t)
    ensures UserOf(Normal(t)) == UserOf(t) && (Normal(t).user.Some? ==> ParseUser(Normal(t).user.value).Some?)
  {
    hide ParseUser, LoginText, OutPath, IsBytes;
    if t.user.Some? {
      ParsedBytes(t.user.value);
      LoginParses(UserOf(t).value);
    }
  }

  // ----- idempotence -----

  lemma {:induction false} EscapeIsTolerable(path: string)
    requires IsBytes(path)
    ensures forall c :: c in Escape(path) ==> TolerableInPath(c)
    ensures IsBytes(Escape(path))
  {
    if path != "" {
      assert path[0] in path;
      assert forall c :: c in path[1..] ==> c in path;
      EscapeIsTolerable(path[1..]);
      assert forall c :: c in EscapeByte(path[0]) ==> TolerableInPath(c);
      assert forall c :: c in Escape(path) ==> c in EscapeByte(path[0]) || c in Escape(path[1..]);
    }
  }

  lemma DecodedHead(path: string)
    requires IsPathText(path) && path != ""
    ensures Unescape(path).value != "" && Unescape(path).value[0] == '/'
  {}

  lemma EscapeHead(path: string)
    requires path == "" || path[0] == '/'
    ensures Escape(path) == "" || Escape(path)[0] == '/'
  {}

  /** What can be left alone in a path starts neither a fragment nor a query, and is no control or blank. */
  lemma TolerableIsInert(c: char)
    requires TolerableInPath(c)
    ensures c != '#' && c != '?' && !IsControl(c) && !IsSpace(c)
  {}

  lemma TolerableIsPathText(out: string)
    requires (out == "" || out[0] == '/') && IsBytes(out) && Unescape(out).Some?
    requires forall c :: c in out ==> TolerableInPath(c)
    ensures IsPathText(out)
  {
    hide TolerableInPath, IsBytes, IsControl, IsSpace, Unescape;
    forall i | 0 <= i < |out|
      ensures out[i] != '#' && out[i] != '?' && !IsControl(out[i]) && !IsSpace(out[i])
    {
      assert out[i] in out;
      TolerableIsInert(out[i]);
    }
  }

  /** The path written out is the decoded one, slashes trimmed and escaped, or the path as it was. */
  lemma OutPathIs(path: string)
    requires IsPathText(path)
    ensures var decoded, out := Unescape(path).value, OutPath(path);
            && IsBytes(TrimSlashes(decoded)) && (TrimSlashes(decoded) == "" || TrimSlashes(decoded)[0] == '/')
            && (out == Escape(TrimSlashes(decoded))
                || (out == path && decoded == TrimSlashes(decoded) && Escape(decoded) != path
                    && forall c :: c in path ==> TolerableInPath(c)))
  {
    hide TolerableInPath, PlainInPath;
    var decoded := Unescape(path).value;
    UnescapedBytes(path);
    if path != "" {
      DecodedHead(path);
    }
    assert forall c :: c in TrimSlashes(decoded) ==> c in decoded;
  }

  /** The path written out is itself a path, and it is its own normal form. */
  lemma OutPathSettles(path: string)
    requires IsPathText(path)
    ensures IsPathText(OutPath(path))
    ensures OutPath(OutPath(path)) == OutPath(path)
  {
    hide TolerableInPath, PlainInPath, Escape, NoControl, IsBytes;
    var trimmed := TrimSlashes(Unescape(path).value);
    OutPathIs(path);
    EscapeIsTolerable(trimmed);
    EscapeHead(trimmed);
    UnescapeEscape(trimmed);
    if OutPath(path) == Escape(trimmed) {
      TolerableIsPathText(Escape(trimmed));
    }
    assert TrimSlashes(trimmed) == trimmed;
  }

  lemma NormalAreParts(t: Target)
    requires AreParts(t)
    ensures AreParts(Normal(t))
  {
    hide ParseUser, LoginText, OutPath, IsPathText, IsQueryText;
    OutPathSettles(t.path);
    NormalUser(t);
    var scheme, host := ToLower(t.scheme), ToLower(t.host);
    assert forall i :: 0 <= i < |scheme| ==>
             IsAlnum(t.scheme[i]) || t.scheme[i] == '+' || t.scheme[i] == '-' || t.scheme[i] == '.';
    assert forall i :: 0 <= i < |host| ==> IsHostChar(t.host[i]) && t.host[i] != ':';
  }

  /** The normal form is its own normal form. */
  lemma NormalSettles(t: Target)
    requires AreParts(t)
    ensures AreParts(Normal(t)) && Normal(Normal(t)) == Normal(t)
  {
    hide ParseUser, LoginText, OutPath, IsPathText, IsQueryText, IsScheme, IsHostChar;
    NormalAreParts(t);
    NormalUser(t);
    OutPathSettles(t.path);
    ToLowerTwice(t.scheme);
    ToLowerTwice(t.host);
  }

  /** What the normal form ends in: a blank only when its query does. */
  lemma NormalEnds(t: Target)
    requires AreParts(t)
    ensures EndsInBlank(Tail(Normal(t))) <==> t.query.Some? && EndsInBlank(t.query.value)
  {
    hide ParseUser, LoginText, IsScheme, IsHostChar, IsQueryText, Escape, Unescape, EscapedPath, TolerableInPath;
    var n := Normal(t);
    OutPathTolerable(t.path);
    assert Tail(n) == n.path + QueryText(n.query);
    if t.query.Some? {
      assert Tail(n)[|Tail(n)| - 1] == (['?'] + t.query.value)[|t.query.value|];
    } else if n.path != "" {
      assert Tail(n) == n.path && n.path[|n.path| - 1] in n.path;
      TolerableIsInert(n.path[|n.path| - 1]);
    }
  }

  lemma OutPathTolerable(path: string)
    requires IsPathText(path)
    ensures forall c :: c in OutPath(path) ==> TolerableInPath(c)
  {
    hide TolerableInPath, PlainInPath;
    OutPathIs(path);
    EscapeIsTolerable(TrimSlashes(Unescape(path).value));
  }

  lemma {:induction false} TrimRightEnds(s: string)
    ensures TrimRight(s) <= s && !EndsInBlank(TrimRight(s))
    decreases |s|
  {
    if EndsInBlank(s) {
      TrimRightEnds(s[..|s| - 1]);
    }
  }

  /** Everything in front of the query. */
  function Front(t: Target): string {
    t.scheme + "://" + Authority(t) + t.path + ['?']
  }

  lemma QueryIsLast(t: Target)
    requires AreParts(t) && t.query.Some? && t.fragment.None?
    ensures Text(t) == Front(t) + t.query.value && EndsInBlank(Tail(t)) == EndsInBlank(t.query.value)
    ensures Front(t) != "" && !IsSpace(Front(t)[0]) && !EndsInBlank(Front(t))
  {
    hide Authority, Unescape, ParseUser, IsHostChar, IsDigits, IsPathText, IsQueryText;
    assert Tail(t) == t.path + ['?'] + t.query.value;
    LastOfBoth(t.path + ['?'], t.query.value);
    LastOfBoth(t.path, ['?']);
    LastOfBoth(t.scheme + "://" + Authority(t) + t.path, ['?']);
    assert Front(t)[0] == t.scheme[0];
  }

  lemma QueryTrimmed(q: string)
    requires IsQueryText(q)
    ensures IsQueryText(TrimRight(q)) && (EndsInBlank(q) ==> |TrimRight(q)| < |q|) && !EndsInBlank(TrimRight(q))
  {
    TrimRightEnds(q);
    TrimRightEnds(q[..if q == "" then 0 else |q| - 1]);
  }

  /** Trimming a target whose query ends in a blank trims the query. */
  lemma BlankQueryTrimmed(n: Target)
    requires AreParts(n) && n.query.Some? && n.fragment.None? && EndsInBlank(n.query.value)
    ensures var q := TrimRight(n.query.value); var m := n.(query := Some(q));
            IsTarget(m) && |q| < |n.query.value| && TrimSpace(Text(n)) == Text(m) && |Text(m)| < |Text(n)|
  {
    hide Authority, Unescape, ParseUser, IsHostChar, IsDigits, IsPathText, IsQueryText, IsScheme, EndsInBlank, IsSpace;
    hide Text, Tail, TrimRight;
    var m := n.(query := Some(TrimRight(n.query.value)));
    QueryTrimmed(n.query.value);
    SameAuthority(n, m);
    QueryIsLast(n);
    QueryIsLast(m);
    NotBlankLast(Front(n));
    TrimRightAfter(Front(n), n.query.value);
    NoBlankFirst(Front(n), n.query.value);
  }

  lemma NotBlankLast(s: string)
    requires s != "" && !EndsInBlank(s)
    ensures !IsSpace(s[|s| - 1])
  {}

  lemma NoBlankFirst(a: string, b: string)
    requires a != "" && !IsSpace(a[0])
    ensures TrimLeft(a + b) == a + b
  {
    assert (a + b)[0] == a[0];
  }

  lemma SameAuthority(n: Target, m: Target)
    requires m.user == n.user && m.host == n.host && m.port == n.port
    ensures Authority(m) == Authority(n)
  {}

  lemma BlanksAreTrimmed(s: string, m: Target)
    requires IsTarget(m) && TrimSpace(s) == Text(m)
    ensures NormalizeTarget(s) == NormalizeTarget(Text(m))
  {
    hide Text, Parse, Rendered;
    TextEnds(m);
  }

  /** Normalising twice is normalising once, exactly when the query does not end in a blank: such a query can stand in
      front of a fragment, which the first pass drops, and then the second pass trims it. */
  lemma NormalizeIdempotent(t: Target)
    requires IsTarget(t)
    ensures NormalizeTarget(NormalizeTarget(Text(t))) == NormalizeTarget(Text(t))
       <==> t.query.None? || !EndsInBlank(t.query.value)
  {
    hide Normal, Parse, Rendered, AreParts;
    var n := Normal(t);
    NormalSettles(t);
    NormalEnds(t);
    NormalizeText(t);
    NormalQuery(t);
    if EndsInBlank(Tail(n)) {
      var q := TrimRight(n.query.value);
      var m := n.(query := Some(q));
      BlankQueryTrimmed(n);
      BlanksAreTrimmed(Text(n), m);
      NormalizeText(m);
      NormalOfTrimmed(n, m);
    } else {
      NormalizeText(n);
    }
  }

  lemma NormalQuery(t: Target)
    requires AreParts(t)
    ensures Normal(t).query == t.query && Normal(t).fragment.None?
  {
    hide OutPath, LoginText, ParseUser, AreParts;
  }

  lemma NormalOfTrimmed(n: Target, m: Target)
    requires AreParts(n) && AreParts(m) && m == n.(query := m.query) && Normal(n) == n
    ensures Normal(m) == m
  {
    hide OutPath, LoginText, ParseUser;
  }

  // ----- what equality means -----

  /** The port a target names; an explicit empty port is a port of its own. */
  function EffectivePort(t: Target): Option<string> {
    if t.port.Some? then t.port else DefaultPort(ToLower(t.scheme))
  }

  predicate AllPlain(path: string) {
    forall c :: c in path ==> PlainInPath(c)
  }

  predicate AllTolerable(path: string) {
    forall c :: c in path ==> TolerableInPath(c)
  }

  predicate EndsInSlash(path: string) {
    path != "" && path[|path| - 1] == '/'
  }

  /** The spelling of a path that counts: as written, if it needs no escaping and its decoded form ends in no slash,
      otherwise decoded, without trailing slashes, and escaped anew. */
  function SpelledPath(path: string): string
    requires IsPathText(path)
  {
    var decoded := Unescape(path).value;
    if AllTolerable(path) && !EndsInSlash(decoded) then path else Escape(TrimSlashes(decoded))
  }

  lemma OutPathSpelled(path: string)
    requires IsPathText(path)
    ensures OutPath(path) == SpelledPath(path)
  {
    hide TolerableInPath, PlainInPath;
    var decoded := Unescape(path).value;
    UnescapedBytes(path);
    TrimmedOrNot(decoded);
    EscapeIsTolerable(decoded);
  }

  /** Of two paths without percent signs: they agree up to trailing slashes, except that a trailing slash is NOT
      ignored when the path holds one of the bytes !'()*[] and nothing that must be percent-encoded: then only one of
      the two spellings is re-encoded. */
  predicate SamePath(p: string, q: string) {
    var t := TrimSlashes(p);
    t == TrimSlashes(q) && (EndsInSlash(p) == EndsInSlash(q) || AllPlain(t) || !AllTolerable(t))
  }

  lemma {:induction false} TrimmedOrNot(path: string)
    ensures TrimSlashes(path) == path <==> !EndsInSlash(path)
    ensures AllPlain(path) <==> AllPlain(TrimSlashes(path))
  {
    if EndsInSlash(path) {
      TrimmedOrNot(path[..|path| - 1]);
      assert path == path[..|path| - 1] + "/";
      assert forall c :: c in path <==> c in path[..|path| - 1] || c == '/';
    }
  }

  /** How a path without percent signs is written out. */
  lemma OutPathOfPlainText(path: string)
    requires IsPathText(path) && '%' !in path
    ensures OutPath(path) == if !EndsInSlash(path) && AllTolerable(path) then path else Escape(TrimSlashes(path))
  {
    UnescapePlain(path);
    EscapePlain(path);
    TrimmedOrNot(path);
  }

  lemma EscapeInjective(p: string, q: string)
    requires IsBytes(p) && IsBytes(q) && Escape(p) == Escape(q)
    ensures p == q
  {
    UnescapeEscape(p);
    UnescapeEscape(q);
  }

  lemma SamePathExactly(p: string, q: string)
    requires IsPathText(p) && IsPathText(q) && '%' !in p && '%' !in q
    ensures OutPath(p) == OutPath(q) <==> SamePath(p, q)
  {
    var s, t := TrimSlashes(p), TrimSlashes(q);
    assert forall c :: c in s ==> c in p;
    assert forall c :: c in t ==> c in q;
    OutPathOfPlainText(p);
    OutPathOfPlainText(q);
    TrimmedOrNot(p);
    TrimmedOrNot(q);
    EscapePlain(s);
    EscapePlain(t);
    if Escape(s) == Escape(t) {
      EscapeInjective(s, t);
    }
  }

  /** A host and port text come apart at the colon. */
  lemma HostAndPort(a: Target, b: Target)
    requires AreParts(a) && AreParts(b) && a.host + PortText(a.port) == b.host + PortText(b.port)
    ensures a.host == b.host && a.port == b.port
  {
    hide IsPathText, IsQueryText, ParseUser, IsScheme;
    var s := a.host + PortText(a.port);
    assert Before(s, ':') == a.host by { HostBeforeColon(a); }
    assert Before(s, ':') == b.host by { HostBeforeColon(b); }
    assert s[|a.host|..] == PortText(a.port) == PortText(b.port);
    assert a.port.Some? ==> PortText(a.port)[1..] == a.port.value;
    assert b.port.Some? ==> PortText(b.port)[1..] == b.port.value;
  }

  lemma HostBeforeColon(t: Target)
    requires AreParts(t)
    ensures Before(t.host + PortText(t.port), ':') == t.host
  {
    hide IsPathText, IsQueryText, ParseUser, IsScheme;
    assert ':' !in t.host;
    if t.port.Some? {
      assert t.host + PortText(t.port) == t.host + [':'] + t.port.value;
      BeforeAt(t.host, ':', t.port.value);
    } else {
      assert t.host + PortText(t.port) == t.host;
    }
  }

  /** Decoded and raw form together give the path back. */
  lemma PathFromParsed(p: string, q: string)
    requires IsPathText(p) && IsPathText(q)
    requires Unescape(p) == Unescape(q) && RawPath(p) == RawPath(q)
    ensures p == q
  {
    hide Escape, Unescape;
    assert RawPath(p) == "" ==> p == "" || Escape(Unescape(p).value) == p;
    assert RawPath(q) == "" ==> q == "" || Escape(Unescape(q).value) == q;
    EmptyPath();
  }

  lemma EmptyPath()
    ensures Unescape("") == Some("") && Escape("") == ""
  {}

  /** Parsing undoes writing, so equal texts are equal part by part. */
  lemma TextInjective(a: Target, b: Target)
    requires AreParts(a) && AreParts(b) && Text(a) == Text(b)
    ensures ToLower(a.scheme) == ToLower(b.scheme) && a.host == b.host && a.port == b.port && a.path == b.path
    ensures a.query == b.query && UserOf(a) == UserOf(b)
  {
    hide Parse, Text, UserOf, RawPath, Unescape, IsScheme, IsQueryText, ParseUser;
    ParseText(a);
    ParseText(b);
    HostAndPort(a, b);
    PathFromParsed(a.path, b.path);
  }

  /** TargetsEqual decides exactly: same scheme and host up to letter case, same effective port, same spelling of the
      path, same query, same user information once decoded. Fragments play no part. */
  lemma TargetsEqualExactly(a: Target, b: Target)
    requires IsTarget(a) && IsTarget(b)
    ensures TargetsEqual(Text(a), Text(b))
       <==> && ToLower(a.scheme) == ToLower(b.scheme) && ToLower(a.host) == ToLower(b.host)
            && EffectivePort(a) == EffectivePort(b) && SpelledPath(a.path) == SpelledPath(b.path)
            && a.query == b.query && UserOf(a) == UserOf(b)
    ensures '%' !in a.path && '%' !in b.path ==>
              (SpelledPath(a.path) == SpelledPath(b.path) <==> SamePath(a.path, b.path))
  {
    hide Text, ParseUser, LoginText, IsPathText, IsQueryText, IsScheme, SamePath, OutPath, UserOf, SpelledPath;
    var m, n := Normal(a), Normal(b);
    NormalizeText(a);
    NormalizeText(b);
    NormalAreParts(a);
    NormalAreParts(b);
    NormalUser(a);
    NormalUser(b);
    NormalParts(a);
    NormalParts(b);
    OutPathSpelled(a.path);
    OutPathSpelled(b.path);
    if '%' !in a.path && '%' !in b.path {
      SamePathExactly(a.path, b.path);
    }
    if Text(m) == Text(n) {
      TextInjective(m, n);
    }
    if UserOf(a) == UserOf(b) && ToLower(a.scheme) == ToLower(b.scheme) && ToLower(a.host) == ToLower(b.host)
       && EffectivePort(a) == EffectivePort(b) && SpelledPath(a.path) == SpelledPath(b.path) && a.query == b.query {
      SameNormal(a, b);
    }
  }

  lemma NormalParts(t: Target)
    requires AreParts(t)
    ensures var n, scheme := Normal(t), ToLower(t.scheme);
            && ToLower(n.scheme) == n.scheme == scheme && n.host == ToLower(t.host) && n.path == OutPath(t.path)
            && n.query == t.query && n.port == if t.port == DefaultPort(scheme) then None else t.port
  {
    hide ParseUser, LoginText, OutPath, IsPathText, IsQueryText, IsScheme;
    ToLowerTwice(t.scheme);
  }

  lemma SameNormal(a: Target, b: Target)
    requires AreParts(a) && AreParts(b) && UserOf(a) == UserOf(b)
    requires ToLower(a.scheme) == ToLower(b.scheme) && ToLower(a.host) == ToLower(b.host)
    requires EffectivePort(a) == EffectivePort(b) && SpelledPath(a.path) == SpelledPath(b.path) && a.query == b.query
    ensures Text(Normal(a)) == Text(Normal(b))
  {
    hide ParseUser, LoginText, OutPath, IsPathText, IsQueryText, IsScheme, SpelledPath;
    OutPathSpelled(a.path);
    OutPathSpelled(b.path);
  }

  /** User information without percent signs is equal exactly when it is written the same. */
  lemma PlainUsers(a: Target, b: Target)
    requires AreParts(a) && AreParts(b)
    requires (a.user.Some? ==> '%' !in a.user.value) && (b.user.Some? ==> '%' !in b.user.value)
    ensures UserOf(a) == UserOf(b) <==> a.user == b.user
  {
    hide IsPathText, IsQueryText, IsScheme, IsHostChar, IsUserChar, Unescape;
    if a.user.Some? {
      PlainUser(a.user.value);
    }
    if b.user.Some? {
      PlainUser(b.user.value);
    }
  }

  lemma PlainUser(text: string)
    requires '%' !in text && ParseUser(text).Some?
    ensures var User(name, password) := ParseUser(text).value;
            text == name + if password.Some? then [':'] + password.value else ""
  {
    hide IsUserChar, Unescape, Index, Before;
    var colon := Index(text, ':');
    if colon >= 0 {
      var name, password := text[..colon], text[colon + 1..];
      BeforeIs(text, ':');
      SplitAt(text, ':');
      PlainPart(name, text);
      PlainPart(password, text);
      assert ParseUser(text) == Some(User(name, Some(password)));
    } else {
      BeforeIs(text, ':');
      PlainPart(text, text);
      assert ParseUser(text) == Some(User(text, None));
    }
  }

  lemma BeforeIs(s: string, c: char)
    ensures Before(s, c) == if Index(s, c) >= 0 then s[..Index(s, c)] else s
  {}

  lemma PlainPart(part: string, s: string)
    requires '%' !in s && forall i :: 0 <= i < |part| ==> part[i] in s
    ensures Unescape(part) == Some(part)
  {
    UnescapePlain(part);
  }

  lemma SlashedPath(path: string)
    requires IsPathText(path) && path != "" && '%' !in path && !EndsInSlash(path)
    requires AllTolerable(path) && !AllPlain(path)
    ensures IsPathText(path + "/") && '%' !in path + "/" && !SamePath(path, path + "/")
  {
    var longer := path + "/";
    assert longer[..|longer| - 1] == path;
    TrimmedOrNot(path);
    assert forall c :: c in longer ==> c in path || c == '/';
    UnescapePlain(longer);
  }

  /** Adding a slash to a path that holds one of !'()*[] and needs no encoding always breaks equality. */
  lemma TrailingSlashCounts(t: Target, slashed: Target)
    requires IsTarget(t) && t.path != "" && '%' !in t.path && !EndsInSlash(t.path)
    requires AllTolerable(t.path) && !AllPlain(t.path)
    requires slashed == t.(path := t.path + "/")
    ensures IsTarget(slashed) && !TargetsEqual(Text(t), Text(slashed))
  {
    hide ParseUser, Text, TargetsEqual, SamePath, IsPathText, IsQueryText, IsScheme, IsHostChar, AllTolerable, AllPlain;
    hide SpelledPath;
    SlashedPath(t.path);
    SlashedEnds(t, slashed);
    TargetsEqualExactly(t, slashed);
  }

  lemma SlashedEnds(t: Target, slashed: Target)
    requires !EndsInBlank(Tail(t)) && slashed == t.(path := t.path + "/")
    ensures !EndsInBlank(Tail(slashed))
  {
    hide EndsInBlank, QueryText, FragmentText;
    var rest := QueryText(t.query) + FragmentText(t.fragment);
    assert Tail(t) == t.path + rest;
    assert Tail(slashed) == slashed.path + rest;
    LastOfBoth(t.path, rest);
    LastOfBoth(slashed.path, rest);
    LastOfBoth(t.path, "/");
    SlashIsNoBlank();
  }

  lemma SlashIsNoBlank()
    ensures !EndsInBlank("/")
  {}

  lemma LastOfBoth(a: string, b: string)
    ensures EndsInBlank(a + b) == if b == "" then EndsInBlank(a) else EndsInBlank(b)
  {
    if b == "" {
      assert a + b == a;
    } else {
      assert (a + b)[|a + b| - 1] == b[|b| - 1];
    }
  }

  /** One such pair: http://svc/! and http://svc/!/ are the same backend to a reader, not to TargetsEqual. */
  lemma TrailingSlashWitness()
    ensures var t := Target("http", None, "svc", None, "/!", None, None);
            !TargetsEqual(Text(t), Text(t.(path := t.path + "/")))
  {
    var path := "/!";
    assert path[1] in path && path[1] == '!' && !PlainInPath('!');
    UnescapePlain(path);
    var t := Target("http", None, "svc", None, path, None, None);
    assert Tail(t) == path;
    TrailingSlashCounts(t, t.(path := path + "/"));
  }

  // ----- the rest of the texts -----

  /** Texts that do not parse are compared up to letter case, blanks around them and slashes behind. */
  lemma UnparsedExactly(s: string, t: string)
    requires Parse(TrimSpace(s)).None? && Parse(TrimSpace(t)).None?
    ensures TargetsEqual(s, t) <==> TrimSlashes(ToLower(TrimSpace(s))) == TrimSlashes(ToLower(TrimSpace(t)))
  {
    hide Parse, TrimSpace;
    assert ToLower("") == "" && TrimSlashes("") == "";
  }

  /** Blanks around any text play no part. */
  lemma BlanksIgnored(before: string, s: string, after: string)
    requires forall i :: 0 <= i < |before| ==> IsSpace(before[i])
    requires forall i :: 0 <= i < |after| ==> IsSpace(after[i])
    ensures NormalizeTarget(before + s + after) == NormalizeTarget(s)
  {
    hide Parse, Rendered, IsSpace;
    TrimLeftDrops(before, s + after);
    assert before + s + after == before + (s + after);
    TrimLeftKeeps(s, after);
    if TrimLeft(s) == "" {
      TrimRightAll(TrimLeft(s + after));
    } else {
      TrimRightDrops(TrimLeft(s), after);
    }
  }

  lemma {:induction false} TrimLeftDrops(before: string, s: string)
    requires forall i :: 0 <= i < |before| ==> IsSpace(before[i])
    ensures TrimLeft(before + s) == TrimLeft(s)
  {
    if before == "" {
      assert before + s == s;
    } else {
      assert (before + s)[1..] == before[1..] + s;
      TrimLeftDrops(before[1..], s);
    }
  }

  lemma {:induction false} TrimLeftKeeps(s: string, after: string)
    requires forall i :: 0 <= i < |after| ==> IsSpace(after[i])
    ensures if TrimLeft(s) != "" then TrimLeft(s + after) == TrimLeft(s) + after
            else forall i :: 0 <= i < |TrimLeft(s + after)| ==> IsSpace(TrimLeft(s + after)[i])
  {
    if s == "" {
      assert s + after == after;
      TrimLeftAll(after);
    } else if IsSpace(s[0]) {
      assert (s + after)[1..] == s[1..] + after;
      TrimLeftKeeps(s[1..], after);
    }
  }

  lemma {:induction false} TrimLeftAll(s: string)
    requires forall i :: 0 <= i < |s| ==> IsSpace(s[i])
    ensures TrimLeft(s) == ""
  {
    if s != "" {
      TrimLeftAll(s[1..]);
    }
  }

  lemma {:induction false} TrimRightAll(s: string)
    requires forall i :: 0 <= i < |s| ==> IsSpace(s[i])
    ensures TrimRight(s) == ""
    decreases |s|
  {
    if s != "" {
      TrimRightAll(s[..|s| - 1]);
    }
  }

  lemma {:induction false} TrimRightDrops(s: string, after: string)
    requires forall i :: 0 <= i < |after| ==> IsSpace(after[i])
    ensures TrimRight(s + after) == TrimRight(s)
    decreases |after|
  {
    if after == "" {
      assert s + after == s;
    } else {
      assert (s + after)[..|s + after| - 1] == s + after[..|after| - 1];
      TrimRightDrops(s, after[..|after| - 1]);
    }
  }
}
