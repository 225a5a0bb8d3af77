/** When two upstream URLs are the same backend (zrokclient/share.go: TargetsEqual, normalizeTarget).
    Strings are byte strings. `Parse` follows Go's net/url on the URLs it accepts with a plain host. */
module Targets {
  import opened Options
  import opened Strings

  // ----- percent-encoding of paths -----

  predicate IsAlnum(c: char) {
    'a' <= c <= 'z' || 'A' <= c <= 'Z' || '0' <= c <= '9'
  }

  /** Bytes that net/url writes unescaped in a path. */
  predicate PlainInPath(c: char) {
    IsAlnum(c) || '+' <= c <= '/' || c == '_' || c == '~' || c == '$' || c == '&'
    || c == ':' || c == ';' || c == '=' || c == '@'
  }

  /** Bytes that net/url leaves alone in a path somebody else encoded. */
  predicate TolerableInPath(c: char) {
    PlainInPath(c) || '\'' <= c <= '*' || c == '!' || c == '[' || c == ']' || c == '%'
  }

  function HexDigit(n: nat): char
    requires n < 16
  {
    if n < 10 then ('0' as int + n) as char else ('A' as int + n - 10) as char
  }

  /** The value of a hexadecimal digit, or 16 for any other byte. */
  function HexValue(c: char): nat {
    if '0' <= c <= '9' then c as int - '0' as int
    else if 'A' <= c <= 'F' then c as int - 'A' as int + 10
    else if 'a' <= c <= 'f' then c as int - 'a' as int + 10
    else 16
  }

  function HexEscape(c: char): string {
    ['%', HexDigit((c as int / 16) % 16), HexDigit(c as int % 16)]
  }

  function EscapeByte(c: char): string {
    if PlainInPath(c) then [c] else HexEscape(c)
  }

  function Escape(path: string): string {
    if path == "" then "" else EscapeByte(path[0]) + Escape(path[1..])
  }

  function Unescape(text: string): Option<string> {
    if text == "" then Some("")
    else if text[0] != '%' then
      var rest := Unescape(text[1..]);
      if rest.None? then None else Some([text[0]] + rest.value)
    else if |text| < 3 || HexValue(text[1]) == 16 || HexValue(text[2]) == 16 then None
    else
      var rest := Unescape(text[3..]);
      if rest.None? then None
      else Some([(16 * HexValue(text[1]) + HexValue(text[2])) as char] + rest.value)
  }

  predicate IsBytes(s: string) {
    forall c :: c in s ==> c as int < 256
  }

  lemma HexPair(c: char)
    requires c as int < 256
    ensures HexValue(HexDigit((c as int / 16) % 16)) == c as int / 16
    ensures HexValue(HexDigit(c as int % 16)) == c as int % 16
  {}

  lemma UnescapeByte(c: char, rest: string)
    requires c as int < 256 && Unescape(rest).Some?
    ensures Unescape(EscapeByte(c) + rest) == Some([c] + Unescape(rest).value)
  {
    var e := EscapeByte(c);
    assert (e + rest)[|e|..] == rest;
    if !PlainInPath(c) {
      HexPair(c);
      assert (e + rest)[1] == e[1] && (e + rest)[2] == e[2];
    }
  }

  lemma {:induction false} UnescapeEscape(path: string)
    requires IsBytes(path)
    ensures Unescape(Escape(path)) == Some(path)
  {
    if path != "" {
      assert path[0] in path;
      assert forall c :: c in path[1..] ==> c in path;
      UnescapeEscape(path[1..]);
      UnescapeByte(path[0], Escape(path[1..]));
      assert path == [path[0]] + path[1..];
    }
  }

  lemma {:induction false} EscapePlain(path: string)
    ensures Escape(path) == path <==> forall c :: c in path ==> PlainInPath(c)
    ensures Escape(path) != path ==> '%' in Escape(path)
  {
    if path != "" {
      var rest := path[1..];
      EscapePlain(rest);
      assert path == [path[0]] + rest;
      assert forall c :: c in path <==> c == path[0] || c in rest;
      assert PlainInPath(path[0]) ==> EscapeByte(path[0]) + Escape(rest) == [path[0]] + Escape(rest);
      assert Escape(path)[0] == EscapeByte(path[0])[0];
      if PlainInPath(path[0]) {
        assert Escape(path)[1..] == Escape(rest);
      } else {
        assert path[0] == '%' || Escape(path)[0] != path[0];
        PercentHead(path);
      }
    }
  }

  lemma PercentHead(path: string)
    requires path != "" && !PlainInPath(path[0])
    ensures Escape(path) != path
  {
    EscapeLonger(path[1..]);
    assert |Escape(path)| == 3 + |Escape(path[1..])|;
  }

  lemma {:induction false} EscapeLonger(path: string)
    ensures |Escape(path)| >= |path|
  {
    if path != "" {
      EscapeLonger(path[1..]);
    }
  }

  lemma {:induction false} UnescapePlain(text: string)
    requires '%' !in text
    ensures Unescape(text) == Some(text)
  {
    if text != "" {
      assert text[0] in text;
      UnescapePlain(text[1..]);
      assert text == [text[0]] + text[1..];
    }
  }

  lemma {:induction false} UnescapedBytes(text: string)
    requires IsBytes(text) && Unescape(text).Some?
    ensures IsBytes(Unescape(text).value)
  {
    if text != "" {
      var step := if text[0] == '%' then 3 else 1;
      assert text[0] in text;
      assert forall c :: c in text[step..] ==> c in text;
      UnescapedBytes(text[step..]);
    }
  }

  // ----- parsing -----

  /** User name and password in front of a host, decoded. */
  datatype User = User(name: string, password: Option<string>)

  /** What url.Parse finds: `path` is decoded, `rawPath` is "" when re-encoding `path` gives the text back. */
  datatype URL = URL(
    scheme: string,
    host: string,
    path: string,
    rawPath: string,
    query: Option<string>,
    user: Option<User>)

  /** Bytes that may stand in user information; of these the second group is written escaped. */
  predicate IsUserChar(c: char) {
    PlainInUser(c) || '\'' <= c <= '*' || c == '!' || c == ':' || c == '@' || c == '%'
  }

  predicate PlainInUser(c: char) {
    IsAlnum(c) || '+' <= c <= '.' || c == '_' || c == '~' || c == '$' || c == '&' || c == ';' || c == '='
  }

  function EscapeUser(text: string): string {
    if text == "" then ""
    else (if PlainInUser(text[0]) then [text[0]] else HexEscape(text[0])) + EscapeUser(text[1..])
  }

  function ParseUser(text: string): Option<User> {
    var colon := Index(text, ':');
    var name := Unescape(Before(text, ':'));
    var password := if colon >= 0 then Unescape(text[colon + 1..]) else Some("");
    if (exists i :: 0 <= i < |text| && !IsUserChar(text[i])) || name.None? || password.None? then None
    else Some(User(name.value, if colon >= 0 then password else None))
  }

  /** Userinfo.String, with the '@' that follows it. */
  function UserText(user: Option<User>): string {
    if user.None? then ""
    else
      EscapeUser(user.value.name)
      + (if user.value.password.Some? then ":" + EscapeUser(user.value.password.value) else "") + "@"
  }

  predicate IsScheme(s: string) {
    && s != "" && IsAlnum(s[0]) && !('0' <= s[0] <= '9')
    && forall i :: 0 <= i < |s| ==> IsAlnum(s[i]) || s[i] == '+' || s[i] == '-' || s[i] == '.'
  }

  predicate IsHostChar(c: char) {
    IsAlnum(c) || '&' <= c <= '.' || ':' <= c <= '>' || c == '!' || c == '"' || c == '$' || c == '_' || c == '~'
  }

  predicate IsDigits(s: string) {
    forall i :: 0 <= i < |s| ==> '0' <= s[i] <= '9'
  }

  predicate IsHost(host: string) {
    && host != "" && (forall i :: 0 <= i < |host| ==> IsHostChar(host[i]))
    && (':' in host ==> IsDigits(host[LastIndex(host, ':') + 1..]))
  }

  predicate IsControl(c: char) {
    c as int < 32 || c as int == 127
  }

  predicate NoControl(s: string) {
    forall i :: 0 <= i < |s| ==> !IsControl(s[i])
  }

  /** None when the text does not parse or has no scheme or no host. */
  function Parse(s: string): Option<URL> {
    var hash := Index(s, '#');
    var body := Before(s, '#');
    var colon := Index(body, ':');
    if !NoControl(body) then None
    else if hash >= 0 && Unescape(s[hash + 1..]).None? then None
    else if colon <= 0 || !IsScheme(body[..colon]) then None
    else ParseRest(ToLower(body[..colon]), body[colon + 1..])
  }

  function ParseRest(scheme: string, rest: string): Option<URL> {
    var q := Index(rest, '?');
    var hier := Before(rest, '?');
    var query := if q >= 0 then Some(rest[q + 1..]) else None;
    if !("//" <= hier) then None else ParseAuthority(scheme, hier[2..], query)
  }

  /** The host, behind the last '@'. */
  function HostPart(authority: string): string {
    authority[LastIndex(authority, '@') + 1..]
  }

  /** The user information before it; None when it is malformed. */
  function UserPart(authority: string): Option<Option<User>> {
    var at := LastIndex(authority, '@');
    if at < 0 then Some(None)
    else if ParseUser(authority[..at]).None? then None
    else Some(ParseUser(authority[..at]))
  }

  function ParseAuthority(scheme: string, text: string, query: Option<string>): Option<URL> {
    var authority := Before(text, '/');
    var path := text[|authority|..];
    var decoded := Unescape(path);
    var user := UserPart(authority);
    if !IsHost(HostPart(authority)) || decoded.None? || user.None? then None
    else
      var rawPath := if Escape(decoded.value) == path then "" else path;
      Some(URL(scheme, HostPart(authority), decoded.value, rawPath, query, user.value))
  }

  // ----- normalisation -----

  /** URL.EscapedPath */
  function EscapedPath(path: string, rawPath: string): string {
    if rawPath != "" && (forall c :: c in rawPath ==> TolerableInPath(c)) && Unescape(rawPath) == Some(path)
    then rawPath else Escape(path)
  }

  function DropDefaultPort(scheme: string, host: string): string {
    if scheme == "http" && HasSuffix(host, ":80") then host[..|host| - 3]
    else if scheme == "https" && HasSuffix(host, ":443") then host[..|host| - 4]
    else host
  }

  /** The URL written out again: host lowered, default port and trailing slashes dropped. */
  function Rendered(u: URL): string {
    var host := DropDefaultPort(u.scheme, ToLower(u.host));
    var path := EscapedPath(TrimSlashes(u.path), u.rawPath);
    u.scheme + ":" + (if host != "" || path != "" || u.user.Some? then "//" + UserText(u.user) + host else "") + path
    + (if u.query.Some? then "?" + u.query.value else "")
  }

  function NormalizeTarget(target: string): string {
    var s := TrimSpace(target);
    if s == "" then ""
    else if Parse(s).None? then TrimSlashes(ToLower(s))
    else Rendered(Parse(s).value)
  }

  predicate TargetsEqual(a: string, b: string) {
    NormalizeTarget(a) == NormalizeTarget(b)
  }
}
