/** Which upstream URLs a share may point at when upstreams are restricted (controller/upstream.go). */
module Upstream {
  import opened Options
  import opened Strings
  import opened Targets
  import opened TargetProofs

  predicate IsLabelChar(c: char) {
    'a' <= c <= 'z' || '0' <= c <= '9'
  }

  /** ^[a-z0-9]([-a-z0-9]*[a-z0-9])?$ and at most 63 bytes: a label in the sense of section 2.1 of RFC 1123. */
  predicate IsDNSLabel(s: string) {
    && 1 <= |s| <= 63
    && IsLabelChar(s[0]) && IsLabelChar(s[|s| - 1])
    && forall i :: 0 <= i < |s| ==> IsLabelChar(s[i]) || s[i] == '-'
  }

  /** The words of the pattern [a-z0-9]([-a-z0-9]*[a-z0-9])? read from left to right: one character of the class, then
      nothing, or any number of characters and dashes and a last one of the class. */
  predicate InPattern(s: string) {
    s != "" && s[0] in "abcdefghijklmnopqrstuvwxyz0123456789" && (|s| == 1 || InTail(s[1..]))
  }

  predicate InTail(s: string) {
    if s == "" then false
    else if |s| == 1 then s[0] in "abcdefghijklmnopqrstuvwxyz0123456789"
    else s[0] in "abcdefghijklmnopqrstuvwxyz0123456789-" && InTail(s[1..])
  }

  lemma ClassLetters(c: char)
    ensures IsLabelChar(c) <==> c in "abcdefghijklmnopqrstuvwxyz0123456789"
    ensures IsLabelChar(c) || c == '-' <==> c in "abcdefghijklmnopqrstuvwxyz0123456789-"
  {}

  lemma {:induction false} TailExactly(s: string)
    ensures InTail(s)
       <==> s != "" && IsLabelChar(s[|s| - 1]) && forall i :: 0 <= i < |s| ==> IsLabelChar(s[i]) || s[i] == '-'
  {
    hide IsLabelChar;
    if s != "" {
      ClassLetters(s[0]);
      TailExactly(s[1..]);
      assert s == [s[0]] + s[1..];
    }
  }

  /** A DNS label is a word of that pattern, and no longer than 63 bytes. */
  lemma LabelExactly(s: string)
    ensures IsDNSLabel(s) <==> InPattern(s) && |s| <= 63
  {
    hide IsLabelChar, InTail;
    if s != "" {
      ClassLetters(s[0]);
      TailExactly(s[1..]);
      assert s == [s[0]] + s[1..];
    }
  }

  function NamespaceSuffixes(ns: string): seq<string> {
    ["." + ns + ".svc.cluster.local", "." + ns + ".svc", "." + ns]
  }

  predicate EndsInLabelled(host: string, suffix: string) {
    HasSuffix(host, suffix) && IsDNSLabel(host[..|host| - |suffix|])
  }

  predicate HostInNamespace(host: string, ns: string) {
    (exists suffix :: suffix in NamespaceSuffixes(ns) && EndsInLabelled(host, suffix))
    || ('.' !in host && IsDNSLabel(host))
  }

  function Split(s: string, c: char): (parts: seq<string>)
    ensures |parts| >= 1
    decreases |s|
  {
    var i := Index(s, c);
    if i < 0 then [s] else [s[..i]] + Split(s[i + 1..], c)
  }

  predicate AllWithout(parts: seq<string>, c: char) {
    forall i :: 0 <= i < |parts| ==> c !in parts[i]
  }

  function Decimal(digits: string): nat
    requires IsDigits(digits)
  {
    if digits == "" then 0 else 10 * Decimal(digits[..|digits| - 1]) + (digits[|digits| - 1] as int - '0' as int)
  }

  /** A field of an IPv4 address: a number up to 255 without leading zeros. */
  predicate IsOctet(s: string) {
    1 <= |s| <= 3 && IsDigits(s) && (|s| > 1 ==> s[0] != '0') && Decimal(s) <= 255
  }

  predicate IsIPv4(host: string) {
    var parts := Split(host, '.');
    |parts| == 4 && forall i :: 0 <= i < 4 ==> IsOctet(parts[i])
  }

  predicate IsHexDigit(c: char) {
    '0' <= c <= '9' || 'a' <= c <= 'f' || 'A' <= c <= 'F'
  }

  function HexPrefix(s: string): (n: nat)
    ensures n <= |s|
  {
    if s == "" || !IsHexDigit(s[0]) then 0 else 1 + HexPrefix(s[1..])
  }

  /** The fields of an IPv6 address from the one after `bytes` bytes on; `gap` says that a "::" has been read. */
  predicate IPv6Fields(s: string, bytes: nat, gap: bool)
    decreases |s|
  {
    var n := HexPrefix(s);
    if bytes >= 16 || !(1 <= n <= 4) then false
    else if n < |s| && s[n] == '.' then
      (gap || bytes == 12) && bytes + 4 <= 16 && IsIPv4(s) && (bytes + 4 < 16 <==> gap)
    else if n == |s| then bytes + 2 < 16 <==> gap
    else if s[n] != ':' || n + 1 == |s| then false
    else if s[n + 1] != ':' then IPv6Fields(s[n + 1..], bytes + 2, gap)
    else if gap then false
    else if n + 2 == |s| then bytes + 2 < 16
    else IPv6Fields(s[n + 2..], bytes + 2, true)
  }

  predicate IsIPv6(host: string) {
    if "::" <= host then host == "::" || IPv6Fields(host[2..], 0, true) else IPv6Fields(host, 0, false)
  }

  /** net.ParseIP: which of the two notations applies shows at the first dot or colon. */
  predicate IsIP(host: string) {
    var dot, colon := Index(host, '.'), Index(host, ':');
    if dot >= 0 && (colon < 0 || dot < colon) then IsIPv4(host) else colon >= 0 && IsIPv6(host)
  }

  datatype Verdict = Allowed | BadURL | UnsupportedScheme | IPAddress | OtherNamespace

  /** URL.Hostname for a host without brackets. */
  function Hostname(host: string): string {
    if ':' in host then host[..LastIndex(host, ':')] else host
  }

  function Judge(rawURL: string, namespace: string): Verdict {
    var parsed := Parse(rawURL);
    if parsed.None? then BadURL
    else if parsed.value.scheme !in ["http", "https", "tcp", "udp"] then UnsupportedScheme
    else
      var host := ToLower(Hostname(parsed.value.host));
      if host == "" then BadURL
      else if IsIP(host) then IPAddress
      else if HostInNamespace(host, ToLower(namespace)) then Allowed
      else OtherNamespace
  }

  method ValidateShareUpstream(rawURL: string, namespace: string) returns (verdict: Verdict)
    ensures verdict == Judge(rawURL, namespace)
  {
    hide Parse, IsIP, EndsInLabelled, IsDNSLabel;
    var parsed := Parse(rawURL);
    if parsed.None? {
      return BadURL;
    }
    if parsed.value.scheme !in ["http", "https", "tcp", "udp"] {
      return UnsupportedScheme;
    }
    var host := ToLower(Hostname(parsed.value.host));
    if host == "" {
      return BadURL;
    }
    if IsIP(host) {
      return IPAddress;
    }
    var suffixes := NamespaceSuffixes(ToLower(namespace));
    for i := 0 to |suffixes|
      invariant forall k :: 0 <= k < i ==> !EndsInLabelled(host, suffixes[k])
    {
      if EndsInLabelled(host, suffixes[i]) {
        return Allowed;
      }
    }
    verdict := if '.' !in host && IsDNSLabel(host) then Allowed else OtherNamespace;
  }

  // ----- the grammar behind the suffixes -----

  /** An independent reading of the rule: split at the dots, a label first, then nothing or the Service suffix. */
  predicate ServiceHost(host: string, ns: string) {
    var labels := Split(host, '.');
    IsDNSLabel(labels[0]) && labels[1..] in [[], [ns], [ns, "svc"], [ns, "svc", "cluster", "local"]]
  }

  lemma SplitFirst(head: string, c: char, tail: string)
    requires c !in head
    ensures Split(head + [c] + tail, c) == [head] + Split(tail, c)
  {
    BeforeAt(head, c, tail);
    assert (head + [c] + tail)[|head| + 1..] == tail;
  }

  lemma SplitWhole(s: string, c: char)
    requires c !in s
    ensures Split(s, c) == [s]
  {}

  lemma LabelHasNoDot(s: string)
    requires IsDNSLabel(s)
    ensures '.' !in s && ':' !in s
  {}

  function Join(parts: seq<string>, c: char): string {
    if parts == [] then "" else [c] + parts[0] + Join(parts[1..], c)
  }

  lemma JoinHead(head: string, first: string, rest: seq<string>, c: char)
    ensures head + Join([first] + rest, c) == head + [c] + (first + Join(rest, c))
  {
    assert ([first] + rest)[1..] == rest;
  }

  lemma {:induction false} SplitJoin(head: string, parts: seq<string>, c: char)
    requires c !in head && AllWithout(parts, c)
    ensures Split(head + Join(parts, c), c) == [head] + parts
    decreases |parts|
  {
    if parts == [] {
      assert head + Join(parts, c) == head;
    } else {
      assert parts == [parts[0]] + parts[1..];
      var rest := parts[1..];
      var tail := parts[0] + Join(rest, c);
      JoinHead(head, parts[0], rest, c);
      SplitFirst(head, c, tail);
      SplitJoin(parts[0], rest, c);
    }
  }

  lemma {:induction false} JoinSplit(s: string, c: char)
    ensures AllWithout(Split(s, c), c)
    ensures Split(s, c)[0] + Join(Split(s, c)[1..], c) == s
    decreases |s|
  {
    if c in s {
      SplitAt(s, c);
      var head, tail := s[..Index(s, c)], s[Index(s, c) + 1..];
      JoinSplit(tail, c);
      JoinSplitStep(head, c, tail);
    } else {
      SplitWhole(s, c);
    }
  }

  lemma JoinSplitStep(head: string, c: char, tail: string)
    requires c !in head && AllWithout(Split(tail, c), c) && Split(tail, c)[0] + Join(Split(tail, c)[1..], c) == tail
    ensures AllWithout(Split(head + [c] + tail, c), c)
    ensures Split(head + [c] + tail, c)[0] + Join(Split(head + [c] + tail, c)[1..], c) == head + [c] + tail
  {
    SplitFirst(head, c, tail);
    var rest := Split(tail, c);
    assert ([head] + rest)[1..] == rest && rest == [rest[0]] + rest[1..];
    JoinHead(head, rest[0], rest[1..], c);
  }

  /** The suffix texts are the dotted lists of labels. */
  lemma SuffixTexts(ns: string)
    ensures NamespaceSuffixes(ns)
         == [Join([ns, "svc", "cluster", "local"], '.'), Join([ns, "svc"], '.'), Join([ns], '.')]
  {
    assert Join(["local"], '.') == ".local";
    assert ["cluster", "local"][1..] == ["local"];
    assert Join(["cluster", "local"], '.') == ".cluster.local";
    assert ["svc", "cluster", "local"][1..] == ["cluster", "local"];
    assert Join(["svc", "cluster", "local"], '.') == ".svc.cluster.local";
    assert [ns, "svc", "cluster", "local"][1..] == ["svc", "cluster", "local"];
    assert Join(["svc"], '.') == ".svc";
    assert [ns, "svc"][1..] == ["svc"];
    assert [ns][1..] == [];
    assert "." + ns + ".svc.cluster.local" == ['.'] + ns + ".svc.cluster.local";
    assert "." + ns + ".svc" == ['.'] + ns + ".svc";
    assert "." + ns == ['.'] + ns + "";
  }

  lemma LabelledMeansSplit(host: string, parts: seq<string>)
    requires AllWithout(parts, '.')
    ensures EndsInLabelled(host, Join(parts, '.'))
            <==> IsDNSLabel(Split(host, '.')[0]) && Split(host, '.')[1..] == parts
  {
    var suffix := Join(parts, '.');
    if EndsInLabelled(host, suffix) {
      var head := host[..|host| - |suffix|];
      LabelHasNoDot(head);
      assert host == head + suffix;
      SplitJoin(head, parts, '.');
    }
    JoinSplit(host, '.');
    var labels := Split(host, '.');
    if IsDNSLabel(labels[0]) && labels[1..] == parts {
      assert host == labels[0] + suffix && host[..|host| - |suffix|] == labels[0];
      assert host[|host| - |suffix|..] == suffix;
    }
  }

  lemma ThreeSuffixes(host: string, ns: string)
    ensures (exists suffix :: suffix in NamespaceSuffixes(ns) && EndsInLabelled(host, suffix))
       <==> EndsInLabelled(host, NamespaceSuffixes(ns)[0]) || EndsInLabelled(host, NamespaceSuffixes(ns)[1])
            || EndsInLabelled(host, NamespaceSuffixes(ns)[2])
  {
    var all := NamespaceSuffixes(ns);
    assert all[0] in all && all[1] in all && all[2] in all;
  }

  lemma ShortHost(host: string)
    ensures '.' !in host && IsDNSLabel(host) <==> IsDNSLabel(Split(host, '.')[0]) && Split(host, '.')[1..] == []
  {
    if '.' !in host {
      SplitWhole(host, '.');
    }
  }

  lemma ServiceShapes(host: string, ns: string)
    ensures var labels := Split(host, '.');
            ServiceHost(host, ns) <==> IsDNSLabel(labels[0])
                                       && (labels[1..] == [] || labels[1..] == [ns] || labels[1..] == [ns, "svc"]
                                           || labels[1..] == [ns, "svc", "cluster", "local"])
  {
    hide IsDNSLabel, Split;
  }

  lemma SuffixLabels(ns: string)
    requires '.' !in ns
    ensures AllWithout([ns, "svc", "cluster", "local"], '.') && AllWithout([ns, "svc"], '.') && AllWithout([ns], '.')
  {}

  /** A host passes exactly when it is l, l.ns, l.ns.svc or l.ns.svc.cluster.local for a DNS label l. */
  lemma HostGrammar(host: string, ns: string)
    requires IsDNSLabel(ns)
    ensures HostInNamespace(host, ns) <==> ServiceHost(host, ns)
  {
    hide IsDNSLabel, Split, Join, EndsInLabelled, NamespaceSuffixes, AllWithout, ServiceHost;
    LabelHasNoDot(ns);
    SuffixTexts(ns);
    SuffixLabels(ns);
    LabelledMeansSplit(host, [ns, "svc", "cluster", "local"]);
    LabelledMeansSplit(host, [ns, "svc"]);
    LabelledMeansSplit(host, [ns]);
    ThreeSuffixes(host, ns);
    ShortHost(host);
    ServiceShapes(host, ns);
  }

  /** A dotted host belongs to at most one namespace, through one label. */
  lemma OneNamespace(host: string, ns: string, other: string)
    requires IsDNSLabel(ns) && IsDNSLabel(other) && '.' in host
    requires HostInNamespace(host, ns) && HostInNamespace(host, other)
    ensures ns == other
  {
    DottedLabels(host, ns);
    DottedLabels(host, other);
  }

  lemma DottedLabels(host: string, ns: string)
    requires IsDNSLabel(ns) && HostInNamespace(host, ns)
    ensures |Split(host, '.')| in {1, 2, 3, 5} && IsDNSLabel(Split(host, '.')[0])
    ensures '.' in host ==> |Split(host, '.')| >= 2 && Split(host, '.')[1] == ns
    ensures '.' !in host ==> Split(host, '.') == [host]
  {
    HostGrammar(host, ns);
    var labels := Split(host, '.');
    var rest := labels[1..];
    assert |labels| == 1 + |rest|;
    assert rest != [] ==> rest[0] == labels[1];
  }

  lemma JoinedHasNoColon(parts: seq<string>)
    requires forall i :: 0 <= i < |parts| ==> ':' !in parts[i]
    ensures ':' !in Join(parts, '.')
  {
    if parts != [] {
      JoinedHasNoColon(parts[1..]);
    }
  }

  lemma NoColon(host: string, ns: string)
    requires IsDNSLabel(ns) && HostInNamespace(host, ns)
    ensures ':' !in host
  {
    hide IsDNSLabel, Split, Join, HostInNamespace, ServiceHost;
    HostGrammar(host, ns);
    ServiceShapes(host, ns);
    LabelHasNoDot(ns);
    JoinSplit(host, '.');
    LabelHasNoDot(Split(host, '.')[0]);
    SuffixPartsHaveNoColon(ns);
    JoinedHasNoColon(Split(host, '.')[1..]);
  }

  lemma SuffixPartsHaveNoColon(ns: string)
    requires ':' !in ns
    ensures forall parts :: parts in {[], [ns], [ns, "svc"], [ns, "svc", "cluster", "local"]} ==>
              forall i :: 0 <= i < |parts| ==> ':' !in parts[i]
  {}

  /** No host that passes the grammar is an IP address, so the order of the two tests does not matter. */
  lemma NoServiceIsIP(host: string, ns: string)
    requires IsDNSLabel(ns) && HostInNamespace(host, ns)
    ensures !IsIP(host)
  {
    NoColon(host, ns);
    DottedLabels(host, ns);
  }

  /** The decision in one line: an allowed scheme, and a host that names a Service of the namespace. */
  lemma AllowedExactly(rawURL: string, namespace: string)
    requires IsDNSLabel(ToLower(namespace))
    ensures Judge(rawURL, namespace) == Allowed
       <==> var parsed := Parse(rawURL);
            && parsed.Some? && parsed.value.scheme in ["http", "https", "tcp", "udp"]
            && ServiceHost(ToLower(Hostname(parsed.value.host)), ToLower(namespace))
  {
    hide Parse, ServiceHost, IsIP, HostInNamespace;
    var parsed := Parse(rawURL);
    if parsed.Some? {
      var host := ToLower(Hostname(parsed.value.host));
      HostGrammar(host, ToLower(namespace));
      if ServiceHost(host, ToLower(namespace)) {
        NoServiceIsIP(host, ToLower(namespace));
        ServiceHasName(host, ToLower(namespace));
      }
    }
  }

  lemma ServiceHasName(host: string, ns: string)
    requires ServiceHost(host, ns)
    ensures host != ""
  {}

  /** Which of the verdicts a written target gets: user information, port, path, query and fragment play no part. */
  lemma JudgedByParts(t: Target, namespace: string)
    requires AreParts(t) && IsDNSLabel(ToLower(namespace))
    ensures Judge(Text(t), namespace)
         == if ToLower(t.scheme) !in ["http", "https", "tcp", "udp"] then UnsupportedScheme
            else if IsIP(ToLower(t.host)) then IPAddress
            else if ServiceHost(ToLower(t.host), ToLower(namespace)) then Allowed else OtherNamespace
  {
    hide Parse, Text, AreParts, IsIP, ServiceHost, HostInNamespace, IsDNSLabel;
    ParseText(t);
    PortCutOff(t);
    HostGrammar(ToLower(t.host), ToLower(namespace));
  }

  lemma PortCutOff(t: Target)
    requires AreParts(t)
    ensures Hostname(t.host + PortText(t.port)) == t.host != ""
  {
    hide ParseUser, IsPathText, IsQueryText, IsScheme;
    if t.port.Some? {
      assert t.host + PortText(t.port) == t.host + [':'] + t.port.value;
      assert ':' !in t.port.value;
      LastAt(t.host, ':', t.port.value);
    } else {
      assert ':' !in t.host && t.host + PortText(t.port) == t.host;
    }
  }

  /** Any other text, and any with an empty host in front of the port, is a bad URL or has an unsupported scheme. */
  lemma BadOtherwise(rawURL: string, namespace: string)
    ensures Judge(rawURL, namespace) == BadURL
       <==> Parse(rawURL).None? || (Parse(rawURL).value.scheme in ["http", "https", "tcp", "udp"]
                                    && Hostname(Parse(rawURL).value.host) == "")
  {
    hide Parse, IsIP, HostInNamespace;
  }
}
