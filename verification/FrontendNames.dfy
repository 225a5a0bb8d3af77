/** Reserved frontend names and the URLs they are served under (zrokclient/share.go, ingress_controller.go). */
module FrontendNames {
  import opened Strings

  /** The host of a frontend URL: blanks, scheme, path and port dropped, letters lowered. */
  function FrontendHost(endpoint: string): string {
    var lowered := ToLower(TrimSpace(endpoint));
    var host := BareName(lowered);
    if ']' !in host then Before(host, ':') else host
  }

  predicate FrontendEndpointMatchesName(endpoint: string, name: string) {
    endpoint != "" && name != "" && ToLower(name) + "." <= FrontendHost(endpoint)
  }

  function FrontendNameFromEndpoint(endpoint: string): string {
    HostLabel(FrontendHost(endpoint))
  }

  /** The first endpoint that yields a name decides. */
  function FrontendNameFromEndpoints(endpoints: seq<string>): string {
    if endpoints == [] then ""
    else if FrontendNameFromEndpoint(endpoints[0]) != "" then FrontendNameFromEndpoint(endpoints[0])
    else FrontendNameFromEndpoints(endpoints[1..])
  }

  method FirstFrontendName(endpoints: seq<string>) returns (name: string)
    ensures name == FrontendNameFromEndpoints(endpoints)
  {
    for i := 0 to |endpoints|
      invariant FrontendNameFromEndpoints(endpoints[i..]) == FrontendNameFromEndpoints(endpoints)
    {
      name := FrontendNameFromEndpoint(endpoints[i]);
      if name != "" {
        return;
      }
    }
    name := "";
  }

  const ZROK_SUFFIXES := [".shares.zrok.io", ".share.zrok.io"]

  /** `text` without the first of `suffixes` that it ends in. */
  function CutFirstSuffix(text: string, suffixes: seq<string>): string {
    if suffixes == [] then text
    else if HasSuffix(text, suffixes[0]) then text[..|text| - |suffixes[0]|]
    else CutFirstSuffix(text, suffixes[1..])
  }

  /** What is left of lowered, non-blank text once scheme and path are gone. */
  function BareName(raw: string): string {
    Before(TrimPrefix(TrimPrefix(raw, "https://"), "http://"), '/')
  }

  /** The DNS label an Ingress host or name annotation stands for. */
  function IngressName(text: string): string {
    var raw := TrimSpace(ToLower(text));
    if raw == "" then "" else CutFirstSuffix(BareName(raw), ZROK_SUFFIXES)
  }

  method IngressReservedName(text: string) returns (name: string)
    ensures name == IngressName(text)
  {
    var raw := TrimSpace(ToLower(text));
    if raw == "" {
      return "";
    }
    raw := BareName(raw);
    for i := 0 to |ZROK_SUFFIXES|
      invariant CutFirstSuffix(raw, ZROK_SUFFIXES[i..]) == CutFirstSuffix(raw, ZROK_SUFFIXES)
    {
      if HasSuffix(raw, ZROK_SUFFIXES[i]) {
        return raw[..|raw| - |ZROK_SUFFIXES[i]|];
      }
    }
    name := raw;
  }

  /** The part of a host before its first dot; all of a host that has none, or starts with one. */
  function HostLabel(host: string): string {
    var i := Index(host, '.');
    if i > 0 then host[..i] else host
  }

  lemma HostAgreement(host: string, want: string)
    requires want != "" && '.' !in want
    ensures want + "." <= host <==> '.' in host && HostLabel(host) == want
  {
    if want + "." <= host {
      HostStartsWith(host, want);
    }
    var i := Index(host, '.');
    assert i >= 0 ==> host[..i + 1] == host[..i] + ".";
    assert i == 0 ==> '.' in host;
  }

  lemma HostStartsWith(host: string, want: string)
    requires want != "" && '.' !in want && want + "." <= host
    ensures '.' in host && HostLabel(host) == want
  {
    var rest := host[|want| + 1..];
    assert host == want + ['.'] + rest;
    BeforeAt(want, '.', rest);
  }

  /** Matching a URL against a dotless name and reading the name off the URL are the same question. */
  lemma NameUrlAgreement(endpoint: string, name: string)
    requires name != "" && '.' !in name
    ensures FrontendEndpointMatchesName(endpoint, name)
       <==> '.' in FrontendHost(endpoint) && FrontendNameFromEndpoint(endpoint) == ToLower(name)
  {
    ToLowerKeeps(name, '.');
    HostAgreement(FrontendHost(endpoint), ToLower(name));
    if endpoint == "" {
      assert TrimSpace(endpoint) == "" && FrontendHost(endpoint) == "";
    }
  }

  lemma OneLabelPerEndpoint(endpoint: string, name: string, other: string)
    requires '.' !in name && '.' !in other
    requires FrontendEndpointMatchesName(endpoint, name) && FrontendEndpointMatchesName(endpoint, other)
    ensures ToLower(name) == ToLower(other)
  {
    NameUrlAgreement(endpoint, name);
    NameUrlAgreement(endpoint, other);
  }

  predicate IsLabelText(n: string) {
    n != "" && forall c :: c in n ==> !IsSpace(c) && c !in "./:]"
  }

  predicate IsUrlOf(url: string, scheme: string, name: string, suffix: string, path: string) {
    && url == scheme + name + suffix + path
    && ToLower(scheme) in ["", "https://", "http://"]
    && ToLower(suffix) in ZROK_SUFFIXES
    && (path == "" || path[0] == '/')
  }

  /** Trimming and lowering such a URL leaves its pieces recognisable. */
  lemma TrimmedUrl(url: string, scheme: string, name: string, suffix: string, path: string) returns (tail: string)
    requires IsLabelText(name) && IsUrlOf(url, scheme, name, suffix, path)
    ensures tail == "" || tail[0] == '/'
    ensures ToLower(TrimSpace(url)) == ToLower(scheme) + ToLower(name) + ToLower(suffix) + tail
    ensures TrimSpace(ToLower(url)) == ToLower(TrimSpace(url))
  {
    var core := scheme + name + suffix;
    assert name[0] in name;
    assert url[0] == ToLower(url)[0] || LowerChar(url[0]) == ToLower(url)[0];
    if scheme == "" {
      assert url[0] == name[0];
    } else {
      assert url[0] == scheme[0] && ToLower(scheme)[0] == 'h';
    }
    assert core[|core| - 1] == suffix[|suffix| - 1] && ToLower(suffix)[|suffix| - 1] == 'o';
    TrimRightAfter(core, path);
    var t := TrimRight(path);
    if path != "" {
      TrimRightKeepsHead(path);
    }
    tail := ToLower(t);
    ToLowerConcat(core, t);
    ToLowerConcat(scheme + name, suffix);
    ToLowerConcat(scheme, name);
    ToLowerConcat(core, path);
    TrimRightAfter(ToLower(core), ToLower(path));
    TrimRightLower(path);
  }

  lemma {:induction false} TrimRightLower(s: string)
    ensures TrimRight(ToLower(s)) == ToLower(TrimRight(s))
  {
    if s != "" && IsSpace(s[|s| - 1]) {
      TrimRightLower(s[..|s| - 1]);
      assert ToLower(s)[..|s| - 1] == ToLower(s[..|s| - 1]);
    }
  }

  /** Text whose first part has no colon or slash cannot start with a scheme. */
  lemma NoScheme(host: string, tail: string)
    requires ':' !in host && '/' !in host
    requires tail == "" || tail[0] == '/'
    ensures !("https://" <= host + tail) && !("http://" <= host + tail)
  {
    var text := host + tail;
    assert forall k :: 0 <= k < |host| ==> text[k] == host[k] && text[k] != ':' && text[k] != '/';
    assert |host| < |text| ==> text[|host|] == '/';
    NotPrefix("https://", 5, text, |host|);
    NotPrefix("http://", 4, text, |host|);
  }

  /** `scheme` has its colon at `colon` and no slash up to there; `text` has neither before `stop`, where a slash is. */
  lemma NotPrefix(scheme: string, colon: nat, text: string, stop: nat)
    requires colon < |scheme| && scheme[colon] == ':' && '/' !in scheme[..colon]
    requires stop <= |text| && (stop < |text| ==> text[stop] == '/')
    requires forall k :: 0 <= k < stop ==> text[k] != ':'
    ensures !(scheme <= text)
  {
    var at := if stop <= colon then stop else colon;
    assert at < |scheme| && (at < colon ==> scheme[at] == scheme[..colon][at]);
    assert at < |text| ==> text[at] != scheme[at];
  }

  lemma SchemeStripped(scheme: string, rest: string)
    requires scheme in ["", "https://", "http://"]
    requires !("https://" <= rest) && !("http://" <= rest)
    ensures TrimPrefix(TrimPrefix(scheme + rest, "https://"), "http://") == rest
  {
    assert (scheme + rest)[|scheme|..] == rest;
    if scheme == "http://" {
      assert (scheme + rest)[4] == ':';
    }
  }

  lemma BareHost(scheme: string, host: string, tail: string)
    requires ':' !in host && '/' !in host
    requires scheme in ["", "https://", "http://"]
    requires tail == "" || tail[0] == '/'
    ensures BareName(scheme + (host + tail)) == host
  {
    NoScheme(host, tail);
    SchemeStripped(scheme, host + tail);
    if tail == "" {
      assert host + tail == host;
    } else {
      assert host + tail == host + ['/'] + tail[1..];
      BeforeAt(host, '/', tail[1..]);
    }
  }

  lemma Regroup(a: string, b: string, c: string, d: string)
    ensures a + b + c + d == a + (b + c + d)
  {}

  lemma BareUrl(lowered: string, scheme: string, name: string, suffix: string, tail: string)
    requires IsLabelText(name) && suffix in ZROK_SUFFIXES && scheme in ["", "https://", "http://"]
    requires tail == "" || tail[0] == '/'
    requires lowered == scheme + name + suffix + tail
    ensures BareName(lowered) == name + suffix && lowered != ""
  {
    HostText(name, suffix);
    Regroup(scheme, name, suffix, tail);
    BareHost(scheme, name + suffix, tail);
  }

  /** Both readers give back the name that a zrok URL was built from. */
  lemma NameRecovered(url: string, scheme: string, name: string, suffix: string, path: string)
    requires IsLabelText(name) && IsUrlOf(url, scheme, name, suffix, path)
    ensures FrontendNameFromEndpoint(url) == ToLower(name)
    ensures FrontendEndpointMatchesName(url, name)
    ensures IngressName(url) == ToLower(name)
  {
    var tail := TrimmedUrl(url, scheme, name, suffix, path);
    LabelLowered(name);
    BareUrl(ToLower(TrimSpace(url)), ToLower(scheme), ToLower(name), ToLower(suffix), tail);
    LabelOfHost(url, ToLower(name), ToLower(suffix));
    SuffixCut(ToLower(name), ToLower(suffix));
    assert '.' !in name;
    NameUrlAgreement(url, name);
  }

  lemma LabelOfHost(url: string, name: string, suffix: string)
    requires IsLabelText(name) && suffix in ZROK_SUFFIXES
    requires BareName(ToLower(TrimSpace(url))) == name + suffix
    ensures FrontendNameFromEndpoint(url) == name && '.' in FrontendHost(url)
  {
    HostText(name, suffix);
    assert ']' !in name + suffix && ':' !in name + suffix;
    HostAgreement(name + suffix, name);
  }

  lemma LabelLowered(name: string)
    requires IsLabelText(name)
    ensures IsLabelText(ToLower(name))
  {
    forall c | c in ToLower(name)
      ensures !IsSpace(c) && c !in "./:]"
    {
      var i :| 0 <= i < |name| && ToLower(name)[i] == c;
      assert name[i] in name;
    }
  }

  lemma HostText(stem: string, suffix: string)
    requires IsLabelText(stem) && suffix in ZROK_SUFFIXES
    ensures forall c :: c in stem + suffix ==> c !in "/:]"
    ensures stem + "." <= stem + suffix
    ensures stem + suffix != ""
  {
    assert forall c :: c in suffix ==> c !in "/:]";
    assert forall c :: c in stem + suffix ==> c in stem || c in suffix;
  }

  lemma SuffixCut(stem: string, suffix: string)
    requires suffix in ZROK_SUFFIXES
    ensures CutFirstSuffix(stem + suffix, ZROK_SUFFIXES) == stem
  {
    var host := stem + suffix;
    assert HasSuffix(host, suffix) && host[..|stem|] == stem;
    if suffix == ZROK_SUFFIXES[1] {
      if |host| >= 15 {
        assert host[|host| - 9] == suffix[5] == 'e';
        assert host[|host| - 15..][6] == host[|host| - 9];
      }
      assert !HasSuffix(host, ZROK_SUFFIXES[0]);
      assert ZROK_SUFFIXES[1..] == [suffix];
    }
  }

  // ----- the host of any URL -----

  /** A port behind a host: a colon and something that ends in no blank. */
  predicate IsPortText(port: string) {
    port == ""
    || (|port| >= 2 && port[0] == ':' && forall i :: 0 <= i < |port| ==> !IsSpace(port[i]) && port[i] !in "/]")
  }

  /** A host with a port starts with no scheme. */
  lemma NoSchemeAtPort(host: string, port: string, tail: string)
    requires ':' !in host && '/' !in host && |port| >= 2 && port[0] == ':' && port[1] != '/'
    ensures !("https://" <= host + port + tail) && !("http://" <= host + port + tail)
  {
    var text := host + port + tail;
    assert forall k :: 0 <= k < |host| ==> text[k] == host[k] && text[k] != ':' && text[k] != '/';
    assert text[|host|] == ':' && text[|host| + 1] == port[1] != '/';
    assert "https://"[5] == ':' && "http://"[4] == ':';
  }

  lemma BareWithPort(scheme: string, host: string, port: string, tail: string)
    requires ':' !in host && '/' !in host && IsPortText(port) && '/' !in port
    requires scheme in ["", "https://", "http://"] && (tail == "" || tail[0] == '/')
    ensures BareName(scheme + (host + port + tail)) == host + port
  {
    hide IsSpace;
    if port == "" {
      assert host + port == host;
      BareHost(scheme, host, tail);
    } else {
      NoSchemeAtPort(host, port, tail);
      SchemeStripped(scheme, host + port + tail);
      if tail == "" {
        assert host + port + tail == host + port;
      } else {
        assert host + port + tail == host + port + ['/'] + tail[1..];
        BeforeAt(host + port, '/', tail[1..]);
      }
    }
  }

  lemma {:induction false} LowerKeepsAll(s: string, bad: string)
    requires forall c :: c in bad ==> LowerChar(c) == c && !('a' <= c <= 'z')
    requires forall i :: 0 <= i < |s| ==> !IsSpace(s[i]) && s[i] !in bad
    ensures forall i :: 0 <= i < |s| ==> !IsSpace(ToLower(s)[i]) && ToLower(s)[i] !in bad
  {}

  /** The pieces of a URL once blanks around it are gone and letters are lowered. */
  lemma LoweredPieces(front: string, path: string)
    requires front != "" && !IsSpace(front[0]) && !IsSpace(front[|front| - 1]) && (path == "" || path[0] == '/')
    ensures var tail := ToLower(TrimRight(path));
            (tail == "" || tail[0] == '/') && ToLower(TrimSpace(front + path)) == ToLower(front) + tail
  {
    assert (front + path)[0] == front[0];
    TrimRightAfter(front, path);
    if path != "" {
      TrimRightKeepsHead(path);
    }
    ToLowerConcat(front, TrimRight(path));
  }

  lemma PortIsPlain(port: string)
    requires IsPortText(port)
    ensures IsPortText(ToLower(port)) && '/' !in port && ']' !in port
  {
    LowerKeepsAll(port, "/]");
  }

  /** The host of any URL with a plain host, with or without scheme, port and path, in either case. */
  lemma HostRecovered(scheme: string, host: string, port: string, path: string)
    requires ToLower(scheme) in ["", "https://", "http://"] && host != "" && IsPortText(port)
    requires forall i :: 0 <= i < |host| ==> !IsSpace(host[i]) && host[i] !in "/:]"
    requires path == "" || path[0] == '/'
    ensures FrontendHost(scheme + host + port + path) == ToLower(host)
  {
    hide IsSpace, TrimRight, TrimSpace, BareName;
    var front := scheme + host + port;
    SchemeFirst(scheme);
    LastOfFront(scheme, host, port);
    LoweredPieces(front, path);
    ToLowerConcat(scheme + host, port);
    ToLowerConcat(scheme, host);
    LowerKeepsAll(host, "/:]");
    PortIsPlain(port);
    var tail := ToLower(TrimRight(path));
    Regroup(ToLower(scheme), ToLower(host), ToLower(port), tail);
    PortIsPlain(ToLower(port));
    BareWithPort(ToLower(scheme), ToLower(host), ToLower(port), tail);
    PortDropped(ToLower(host), ToLower(port));
  }

  lemma SchemeFirst(scheme: string)
    requires ToLower(scheme) in ["", "https://", "http://"]
    ensures scheme != "" ==> !IsSpace(scheme[0])
  {
    assert scheme != "" ==> ToLower(scheme)[0] == 'h';
  }

  lemma LastOfFront(scheme: string, host: string, port: string)
    requires host != "" && IsPortText(port) && forall i :: 0 <= i < |host| ==> !IsSpace(host[i])
    requires scheme != "" ==> !IsSpace(scheme[0])
    ensures var front := scheme + host + port;
            front != "" && !IsSpace(front[0]) && !IsSpace(front[|front| - 1])
  {
    hide IsSpace;
    var front := scheme + host + port;
    assert front[0] == if scheme != "" then scheme[0] else host[0];
    assert front[|front| - 1] == if port != "" then port[|port| - 1] else host[|host| - 1];
  }

  lemma PortDropped(host: string, port: string)
    requires IsPortText(port) && ':' !in host && ']' !in host && ']' !in port
    ensures ']' !in host + port && Before(host + port, ':') == host
  {
    hide IsSpace;
    if port == "" {
      assert host + port == host;
    } else {
      assert host + port == host + [':'] + port[1..];
      BeforeAt(host, ':', port[1..]);
    }
  }
}
