/** The text that shareApplyDigest hashes (controller/share_apply.go). The hash itself is taken to be injective. */
module Digest {
  import opened Options
  import opened Shares
  import opened Sorting

  function Line(text: string): string {
    text + "\n"
  }

  function Flag(b: bool): string {
    if b then "true" else "false"
  }

  /** One line per element, each after the tag. */
  function Tagged(tag: string, values: seq<string>): seq<string> {
    if values == [] then [] else [tag + values[0]] + Tagged(tag, values[1..])
  }

  function Optional(tag: string, value: Option<string>): seq<string> {
    if value.None? then [] else [tag + value.value]
  }

  function FixedLines(spec: ShareSpec): seq<string> {
    ["env=" + spec.environment,
     "mode=" + ModeText(DesiredShareMode(spec)),
     "backend=" + DesiredBackendMode(spec),
     "up=" + spec.upstream,
     "name=" + NamespaceToken(spec) + "/" + ReservedName(spec),
     "priv=" + spec.privateShareToken,
     "insecure=" + Flag(spec.insecure),
     "closed=" + Flag(spec.closed)]
  }

  function OAuthLines(oauth: Option<OAuth>): seq<string> {
    if oauth.None? then []
    else ["oauth=" + oauth.value.provider, "interval=" + oauth.value.refreshInterval]
         + Tagged("oauth-domain=", Sort(oauth.value.emailDomains))
  }

  function Lines(spec: ShareSpec, basicAuth: seq<string>): seq<string> {
    FixedLines(spec) + (Tagged("grant=", Sort(spec.accessGrants))
                        + (Optional("ba-secret=", spec.basicAuthSecret)
                           + (Tagged("ba=", basicAuth) + OAuthLines(spec.oauth))))
  }

  function Written(lines: seq<string>): string {
    if lines == [] then "" else Line(lines[0]) + Written(lines[1..])
  }

  function ApplyDigest(spec: ShareSpec, basicAuth: seq<string>): string {
    Written(Lines(spec, basicAuth))
  }

  lemma {:induction false} WrittenConcat(a: seq<string>, b: seq<string>)
    ensures Written(a + b) == Written(a) + Written(b)
  {
    if a == [] {
      assert a + b == b;
    } else {
      WrittenConcat(a[1..], b);
      assert (a + b)[1..] == a[1..] + b;
    }
  }

  lemma {:induction false} TaggedSnoc(tag: string, values: seq<string>, value: string)
    ensures Tagged(tag, values + [value]) == Tagged(tag, values) + [tag + value]
  {
    if values == [] {
      assert [value][1..] == [];
    } else {
      assert (values + [value])[1..] == values[1..] + [value];
      TaggedSnoc(tag, values[1..], value);
    }
  }

  /** The builder loop `for _, v := range values { Fprintf(&b, "tag%s\n", v) }`. */
  method AppendTagged(b: string, tag: string, values: seq<string>) returns (r: string)
    ensures r == b + Written(Tagged(tag, values))
  {
    r := b;
    for i := 0 to |values|
      invariant r == b + Written(Tagged(tag, values[..i]))
    {
      assert values[..i + 1] == values[..i] + [values[i]];
      TaggedSnoc(tag, values[..i], values[i]);
      WrittenConcat(Tagged(tag, values[..i]), [tag + values[i]]);
      WrittenOne(tag + values[i]);
      r := r + Line(tag + values[i]);
    }
    assert values[..|values|] == values;
  }

  lemma WrittenOne(line: string)
    ensures Written([line]) == Line(line)
  {
    assert [line][1..] == [];
  }

  method AppendOAuth(b: string, oauth: Option<OAuth>) returns (r: string)
    ensures r == b + Written(OAuthLines(oauth))
  {
    r := b;
    if oauth.Some? {
      var o := oauth.value;
      ghost var domains := Tagged("oauth-domain=", Sort(o.emailDomains));
      WrittenConcat(["oauth=" + o.provider, "interval=" + o.refreshInterval], domains);
      r := r + Written(["oauth=" + o.provider, "interval=" + o.refreshInterval]);
      r := AppendTagged(r, "oauth-domain=", Sort(o.emailDomains));
    }
  }

  method AppendOptional(b: string, tag: string, value: Option<string>) returns (r: string)
    ensures r == b + Written(Optional(tag, value))
  {
    r := b;
    if value.Some? {
      WrittenOne(tag + value.value);
      r := r + Line(tag + value.value);
    }
  }

  method ShareApplyDigest(spec: ShareSpec, basicAuth: seq<string>) returns (b: string)
    ensures b == ApplyDigest(spec, basicAuth)
  {
    b := Written(FixedLines(spec));
    b := AppendTagged(b, "grant=", Sort(spec.accessGrants));
    b := AppendOptional(b, "ba-secret=", spec.basicAuthSecret);
    b := AppendTagged(b, "ba=", basicAuth);
    b := AppendOAuth(b, spec.oauth);
    FiveParts(FixedLines(spec), Tagged("grant=", Sort(spec.accessGrants)), Optional("ba-secret=", spec.basicAuthSecret),
              Tagged("ba=", basicAuth), OAuthLines(spec.oauth));
  }

  lemma FiveParts(a: seq<string>, b: seq<string>, c: seq<string>, d: seq<string>, e: seq<string>)
    ensures Written(a + (b + (c + (d + e)))) == Written(a) + Written(b) + Written(c) + Written(d) + Written(e)
  {
    WrittenConcat(a, b + (c + (d + e)));
    FourParts(Written(a), b, c, d, e);
  }

  lemma FourParts(front: string, b: seq<string>, c: seq<string>, d: seq<string>, e: seq<string>)
    ensures front + Written(b + (c + (d + e))) == front + Written(b) + Written(c) + Written(d) + Written(e)
  {
    NextPart(front, b, c + (d + e));
    NextPart(front + Written(b), c, d + e);
    NextPart(front + Written(b) + Written(c), d, e);
  }

  lemma NextPart(front: string, a: seq<string>, b: seq<string>)
    ensures front + Written(a + b) == front + Written(a) + Written(b)
  {
    WrittenConcat(a, b);
  }

  // ----- the text determines the fields -----

  predicate OneLine(s: string) {
    '\n' !in s
  }

  predicate AllOneLine(values: seq<string>) {
    forall i :: 0 <= i < |values| ==> OneLine(values[i])
  }

  /** Every digested field fits on a line. */
  predicate Digestible(spec: ShareSpec, basicAuth: seq<string>) {
    && OneLine(spec.environment) && OneLine(ModeText(DesiredShareMode(spec))) && OneLine(spec.backendMode)
    && OneLine(spec.upstream)
    && OneLine(NamespaceToken(spec)) && OneLine(ReservedName(spec)) && OneLine(spec.privateShareToken)
    && AllOneLine(spec.accessGrants) && AllOneLine(basicAuth)
    && (spec.basicAuthSecret.Some? ==> OneLine(spec.basicAuthSecret.value))
    && (spec.oauth.Some? ==> OneLine(spec.oauth.value.provider) && OneLine(spec.oauth.value.refreshInterval)
                             && AllOneLine(spec.oauth.value.emailDomains))
  }

  /** Namespace token and reserved name, as they are written together. */
  function QualifiedName(spec: ShareSpec): string {
    NamespaceToken(spec) + "/" + ReservedName(spec)
  }

  predicate SameOAuth(a: Option<OAuth>, b: Option<OAuth>) {
    a.Some? == b.Some?
    && (a.Some? ==> a.value.provider == b.value.provider && a.value.refreshInterval == b.value.refreshInterval
                    && multiset(a.value.emailDomains) == multiset(b.value.emailDomains))
  }

  /** Agreement on every digested field but the name, after defaulting and up to the order of grants and email
      domains. */
  predicate SameApart(a: ShareSpec, basicAuthA: seq<string>, b: ShareSpec, basicAuthB: seq<string>) {
    && a.environment == b.environment && ModeText(DesiredShareMode(a)) == ModeText(DesiredShareMode(b))
    && DesiredBackendMode(a) == DesiredBackendMode(b) && a.upstream == b.upstream
    && a.privateShareToken == b.privateShareToken && a.insecure == b.insecure && a.closed == b.closed
    && multiset(a.accessGrants) == multiset(b.accessGrants)
    && a.basicAuthSecret == b.basicAuthSecret && basicAuthA == basicAuthB && SameOAuth(a.oauth, b.oauth)
  }

  /** Agreement on every digested field. */
  predicate SameApplied(a: ShareSpec, basicAuthA: seq<string>, b: ShareSpec, basicAuthB: seq<string>) {
    SameApart(a, basicAuthA, b, basicAuthB) && NamespaceToken(a) == NamespaceToken(b)
    && ReservedName(a) == ReservedName(b)
  }

  lemma LineBreak(x: string, rest: string, y: string, other: string)
    requires OneLine(x) && OneLine(y) && Line(x) + rest == Line(y) + other
    ensures x == y && rest == other
  {
    var s := Line(x) + rest;
    assert s[|x|] == '\n' && s[|y|] == '\n';
    assert forall k :: 0 <= k < |x| ==> s[k] == x[k] && x[k] != '\n';
    assert forall k :: 0 <= k < |y| ==> s[k] == y[k] && y[k] != '\n';
    assert |x| == |y|;
    assert x == s[..|x|] == y;
    assert rest == s[|x| + 1..] == other;
  }

  lemma WrittenEmpty(lines: seq<string>)
    ensures Written(lines) == "" <==> lines == []
  {}

  lemma {:induction false} WrittenInjective(a: seq<string>, b: seq<string>)
    requires AllOneLine(a) && AllOneLine(b) && Written(a) == Written(b)
    ensures a == b
  {
    WrittenEmpty(a);
    WrittenEmpty(b);
    if a != [] && b != [] {
      LineBreak(a[0], Written(a[1..]), b[0], Written(b[1..]));
      WrittenInjective(a[1..], b[1..]);
      assert a == [a[0]] + a[1..] && b == [b[0]] + b[1..];
    }
  }

  predicate Begins(lines: seq<string>, tag: string) {
    lines != [] && tag <= lines[0]
  }

  lemma TagCancel(tag: string, x: string, y: string)
    requires tag + x == tag + y
    ensures x == y
  {
    assert (tag + x)[|tag|..] == x && (tag + y)[|tag|..] == y;
  }

  lemma TaggedBegins(tag: string, xs: seq<string>, rest: seq<string>)
    ensures if xs == [] then Tagged(tag, xs) + rest == rest
            else Begins(Tagged(tag, xs) + rest, tag) && (Tagged(tag, xs) + rest)[0] == tag + xs[0]
  {}

  /** A run of tagged lines ends where the first other line begins, so both halves can be read back. */
  lemma {:induction false} TaggedSplit(tag: string, xs: seq<string>, rest: seq<string>, ys: seq<string>,
                                       other: seq<string>)
    requires Tagged(tag, xs) + rest == Tagged(tag, ys) + other
    requires !Begins(rest, tag) && !Begins(other, tag)
    ensures xs == ys && rest == other
  {
    TaggedBegins(tag, xs, rest);
    TaggedBegins(tag, ys, other);
    if xs != [] && ys != [] {
      var left, right := Tagged(tag, xs) + rest, Tagged(tag, ys) + other;
      assert left[0] == tag + xs[0] && right[0] == tag + ys[0];
      TagCancel(tag, xs[0], ys[0]);
      assert left[1..] == Tagged(tag, xs[1..]) + rest && right[1..] == Tagged(tag, ys[1..]) + other;
      TaggedSplit(tag, xs[1..], rest, ys[1..], other);
      assert xs == [xs[0]] + xs[1..] && ys == [ys[0]] + ys[1..];
    }
  }

  lemma OptionalSplit(tag: string, x: Option<string>, rest: seq<string>, y: Option<string>, other: seq<string>)
    requires Optional(tag, x) + rest == Optional(tag, y) + other
    requires !Begins(rest, tag) && !Begins(other, tag)
    ensures x == y && rest == other
  {
    var xs := if x.Some? then [x.value] else [];
    var ys := if y.Some? then [y.value] else [];
    OptionalIsTagged(tag, x);
    OptionalIsTagged(tag, y);
    TaggedSplit(tag, xs, rest, ys, other);
  }

  lemma OptionalIsTagged(tag: string, x: Option<string>)
    ensures Optional(tag, x) == Tagged(tag, if x.Some? then [x.value] else [])
  {
    if x.Some? {
      assert [x.value][1..] == [];
    }
  }

  lemma FixedLinesInjective(a: ShareSpec, b: ShareSpec)
    requires FixedLines(a) == FixedLines(b)
    ensures a.environment == b.environment && ModeText(DesiredShareMode(a)) == ModeText(DesiredShareMode(b))
    ensures DesiredBackendMode(a) == DesiredBackendMode(b) && a.upstream == b.upstream
    ensures QualifiedName(a) == QualifiedName(b)
    ensures a.privateShareToken == b.privateShareToken && a.insecure == b.insecure && a.closed == b.closed
  {
    FixedLineFields(a, b);
    assert "name=" + QualifiedName(a) == "name=" + NamespaceToken(a) + "/" + ReservedName(a);
    assert "name=" + QualifiedName(b) == "name=" + NamespaceToken(b) + "/" + ReservedName(b);
    TagCancel("name=", QualifiedName(a), QualifiedName(b));
    FlagLine("insecure=", a.insecure, b.insecure);
    FlagLine("closed=", a.closed, b.closed);
  }

  lemma FixedLineFields(a: ShareSpec, b: ShareSpec)
    requires FixedLines(a) == FixedLines(b)
    ensures a.environment == b.environment && ModeText(DesiredShareMode(a)) == ModeText(DesiredShareMode(b))
    ensures DesiredBackendMode(a) == DesiredBackendMode(b) && a.upstream == b.upstream
    ensures "name=" + NamespaceToken(a) + "/" + ReservedName(a) == "name=" + NamespaceToken(b) + "/" + ReservedName(b)
    ensures a.privateShareToken == b.privateShareToken
    ensures "insecure=" + Flag(a.insecure) == "insecure=" + Flag(b.insecure)
    ensures "closed=" + Flag(a.closed) == "closed=" + Flag(b.closed)
  {
    var x, y := FixedLines(a), FixedLines(b);
    assert x[0] == y[0] && x[1] == y[1] && x[2] == y[2] && x[3] == y[3];
    assert x[4] == y[4] && x[5] == y[5] && x[6] == y[6] && x[7] == y[7];
    TagCancel("env=", a.environment, b.environment);
    TagCancel("mode=", ModeText(DesiredShareMode(a)), ModeText(DesiredShareMode(b)));
    TagCancel("backend=", DesiredBackendMode(a), DesiredBackendMode(b));
    TagCancel("up=", a.upstream, b.upstream);
    TagCancel("priv=", a.privateShareToken, b.privateShareToken);
  }

  lemma FlagLine(tag: string, x: bool, y: bool)
    requires tag + Flag(x) == tag + Flag(y)
    ensures x == y
  {
    TagCancel(tag, Flag(x), Flag(y));
    assert |Flag(x)| == |Flag(y)|;
  }

  /** In a name without slashes the last slash is the separator. */
  lemma QualifiedNameInjective(a: ShareSpec, b: ShareSpec)
    requires '/' !in ReservedName(a) && '/' !in ReservedName(b)
    ensures QualifiedName(a) == QualifiedName(b)
            <==> NamespaceToken(a) == NamespaceToken(b) && ReservedName(a) == ReservedName(b)
  {
    if QualifiedName(a) == QualifiedName(b) {
      var s := QualifiedName(a);
      var ns, name, otherNs, other := NamespaceToken(a), ReservedName(a), NamespaceToken(b), ReservedName(b);
      assert s[|ns|] == '/' && s[|otherNs|] == '/';
      assert forall k :: |ns| < k < |s| ==> s[k] == name[k - 1 - |ns|];
      assert forall k :: |otherNs| < k < |s| ==> s[k] == other[k - 1 - |otherNs|];
      assert |ns| == |otherNs|;
      assert s[..|ns|] == ns && s[..|ns|] == otherNs;
      assert s[1 + |ns|..] == name && s[1 + |ns|..] == other;
    }
  }

  lemma OAuthLinesInjective(a: Option<OAuth>, b: Option<OAuth>)
    ensures OAuthLines(a) == OAuthLines(b) <==> SameOAuth(a, b)
  {
    if a.Some? && b.Some? {
      var x, y := OAuthLines(a), OAuthLines(b);
      SortIsMultiset(a.value.emailDomains, b.value.emailDomains);
      if x == y {
        assert x[0] == y[0] && x[1] == y[1];
        TagCancel("oauth=", a.value.provider, b.value.provider);
        TagCancel("interval=", a.value.refreshInterval, b.value.refreshInterval);
        var xs, ys :=
          Tagged("oauth-domain=", Sort(a.value.emailDomains)), Tagged("oauth-domain=", Sort(b.value.emailDomains));
        assert x[2..] == xs && y[2..] == ys;
        assert xs + [] == xs && ys + [] == ys;
        TaggedSplit("oauth-domain=", Sort(a.value.emailDomains), [], Sort(b.value.emailDomains), []);
      }
    }
  }

  /** The blocks after the fixed lines start with different tags. */
  lemma BlockHeads(secret: Option<string>, basicAuth: seq<string>, oauth: Option<OAuth>)
    ensures !Begins(OAuthLines(oauth), "ba=")
    ensures !Begins(Tagged("ba=", basicAuth) + OAuthLines(oauth), "ba-secret=")
    ensures !Begins(Optional("ba-secret=", secret) + (Tagged("ba=", basicAuth) + OAuthLines(oauth)), "grant=")
  {
    var auth := OAuthLines(oauth);
    if oauth.Some? {
      assert auth[0][0] == 'o';
    }
    var plain := Tagged("ba=", basicAuth) + auth;
    TaggedBegins("ba=", basicAuth, auth);
    if basicAuth != [] {
      assert plain[0][0] == 'b' && plain[0][2] == '=';
    }
    OptionalIsTagged("ba-secret=", secret);
    if secret.Some? {
      assert (Optional("ba-secret=", secret) + plain)[0][0] == 'b';
    } else {
      assert Optional("ba-secret=", secret) + plain == plain;
    }
  }

  lemma BlocksInjective(a: ShareSpec, basicAuthA: seq<string>, b: ShareSpec, basicAuthB: seq<string>)
    requires Lines(a, basicAuthA) == Lines(b, basicAuthB)
    ensures FixedLines(a) == FixedLines(b)
    ensures multiset(a.accessGrants) == multiset(b.accessGrants) && a.basicAuthSecret == b.basicAuthSecret
    ensures basicAuthA == basicAuthB && SameOAuth(a.oauth, b.oauth)
  {
    var plainA := Tagged("ba=", basicAuthA) + OAuthLines(a.oauth);
    var plainB := Tagged("ba=", basicAuthB) + OAuthLines(b.oauth);
    var secretA := Optional("ba-secret=", a.basicAuthSecret) + plainA;
    var secretB := Optional("ba-secret=", b.basicAuthSecret) + plainB;
    EightThenRest(FixedLines(a), Tagged("grant=", Sort(a.accessGrants)) + secretA,
                  FixedLines(b), Tagged("grant=", Sort(b.accessGrants)) + secretB);
    BlockHeads(a.basicAuthSecret, basicAuthA, a.oauth);
    BlockHeads(b.basicAuthSecret, basicAuthB, b.oauth);
    TaggedSplit("grant=", Sort(a.accessGrants), secretA, Sort(b.accessGrants), secretB);
    OptionalSplit("ba-secret=", a.basicAuthSecret, plainA, b.basicAuthSecret, plainB);
    TaggedSplit("ba=", basicAuthA, OAuthLines(a.oauth), basicAuthB, OAuthLines(b.oauth));
    OAuthLinesInjective(a.oauth, b.oauth);
    SortIsMultiset(a.accessGrants, b.accessGrants);
  }

  lemma EightThenRest(x: seq<string>, rest: seq<string>, y: seq<string>, other: seq<string>)
    requires |x| == |y| && x + rest == y + other
    ensures x == y && rest == other
  {
    assert (x + rest)[..|x|] == x && (y + other)[..|y|] == y;
    assert (x + rest)[|x|..] == rest && (y + other)[|y|..] == other;
  }

  lemma {:induction false} TaggedOneLine(tag: string, values: seq<string>)
    requires OneLine(tag) && AllOneLine(values)
    ensures AllOneLine(Tagged(tag, values))
  {
    if values != [] {
      TaggedOneLine(tag, values[1..]);
      assert OneLine(tag + values[0]);
    }
  }

  lemma AllOneLineConcat(a: seq<string>, b: seq<string>)
    requires AllOneLine(a) && AllOneLine(b)
    ensures AllOneLine(a + b)
  {}

  lemma SortOneLine(values: seq<string>)
    requires AllOneLine(values)
    ensures AllOneLine(Sort(values))
  {
    forall i | 0 <= i < |Sort(values)|
      ensures OneLine(Sort(values)[i])
    {
      assert Sort(values)[i] in multiset(Sort(values));
      assert Sort(values)[i] in multiset(values);
    }
  }

  lemma FixedOneLine(spec: ShareSpec, basicAuth: seq<string>)
    requires Digestible(spec, basicAuth)
    ensures AllOneLine(FixedLines(spec))
  {
    assert OneLine("env=" + spec.environment) && OneLine("mode=" + ModeText(DesiredShareMode(spec)));
    assert OneLine("backend=" + DesiredBackendMode(spec)) && OneLine("up=" + spec.upstream);
    assert OneLine("name=" + NamespaceToken(spec) + "/" + ReservedName(spec));
    assert OneLine("priv=" + spec.privateShareToken);
    assert OneLine("insecure=" + Flag(spec.insecure)) && OneLine("closed=" + Flag(spec.closed));
  }

  lemma OptionalOneLine(tag: string, value: Option<string>)
    requires OneLine(tag) && (value.Some? ==> OneLine(value.value))
    ensures AllOneLine(Optional(tag, value))
  {}

  lemma OAuthOneLine(oauth: Option<OAuth>)
    requires oauth.Some? ==> OneLine(oauth.value.provider) && OneLine(oauth.value.refreshInterval)
                             && AllOneLine(oauth.value.emailDomains)
    ensures AllOneLine(OAuthLines(oauth))
  {
    if oauth.Some? {
      SortOneLine(oauth.value.emailDomains);
      TaggedOneLine("oauth-domain=", Sort(oauth.value.emailDomains));
      assert OneLine("oauth=" + oauth.value.provider) && OneLine("interval=" + oauth.value.refreshInterval);
    }
  }

  lemma LinesOneLine(spec: ShareSpec, basicAuth: seq<string>)
    requires Digestible(spec, basicAuth)
    ensures AllOneLine(Lines(spec, basicAuth))
  {
    FixedOneLine(spec, basicAuth);
    SortOneLine(spec.accessGrants);
    TaggedOneLine("grant=", Sort(spec.accessGrants));
    TaggedOneLine("ba=", basicAuth);
    OptionalOneLine("ba-secret=", spec.basicAuthSecret);
    OAuthOneLine(spec.oauth);
    var plain := Tagged("ba=", basicAuth) + OAuthLines(spec.oauth);
    var secret := Optional("ba-secret=", spec.basicAuthSecret) + plain;
    AllOneLineConcat(Tagged("ba=", basicAuth), OAuthLines(spec.oauth));
    AllOneLineConcat(Optional("ba-secret=", spec.basicAuthSecret), plain);
    AllOneLineConcat(Tagged("grant=", Sort(spec.accessGrants)), secret);
    AllOneLineConcat(FixedLines(spec), Tagged("grant=", Sort(spec.accessGrants)) + secret);
  }

  /** Two specs hash the same text exactly when they agree on what was applied, namespace and name read together. */
  lemma DigestExactly(a: ShareSpec, basicAuthA: seq<string>, b: ShareSpec, basicAuthB: seq<string>)
    requires Digestible(a, basicAuthA) && Digestible(b, basicAuthB)
    ensures ApplyDigest(a, basicAuthA) == ApplyDigest(b, basicAuthB)
       <==> SameApart(a, basicAuthA, b, basicAuthB) && QualifiedName(a) == QualifiedName(b)
  {
    hide FixedLines, Tagged, Optional, OAuthLines, Written, Sort, QualifiedName, Digestible;
    if ApplyDigest(a, basicAuthA) == ApplyDigest(b, basicAuthB) {
      LinesOneLine(a, basicAuthA);
      LinesOneLine(b, basicAuthB);
      WrittenInjective(Lines(a, basicAuthA), Lines(b, basicAuthB));
      BlocksInjective(a, basicAuthA, b, basicAuthB);
      FixedLinesInjective(a, b);
    }
    if SameApart(a, basicAuthA, b, basicAuthB) && QualifiedName(a) == QualifiedName(b) {
      SortIsMultiset(a.accessGrants, b.accessGrants);
      OAuthLinesInjective(a.oauth, b.oauth);
      SameFixedLines(a, b);
    }
  }

  lemma SameFixedLines(a: ShareSpec, b: ShareSpec)
    requires a.environment == b.environment && ModeText(DesiredShareMode(a)) == ModeText(DesiredShareMode(b))
    requires DesiredBackendMode(a) == DesiredBackendMode(b) && a.upstream == b.upstream
    requires QualifiedName(a) == QualifiedName(b)
    requires a.privateShareToken == b.privateShareToken && a.insecure == b.insecure && a.closed == b.closed
    ensures FixedLines(a) == FixedLines(b)
  {
    assert "name=" + QualifiedName(a) == "name=" + NamespaceToken(a) + "/" + ReservedName(a);
    assert "name=" + QualifiedName(b) == "name=" + NamespaceToken(b) + "/" + ReservedName(b);
  }

  /** For the names the API admits, which have no slash, that is agreement on every field. */
  lemma DigestOfAdmitted(a: ShareSpec, basicAuthA: seq<string>, b: ShareSpec, basicAuthB: seq<string>)
    requires Digestible(a, basicAuthA) && Digestible(b, basicAuthB)
    requires '/' !in ReservedName(a) && '/' !in ReservedName(b)
    ensures ApplyDigest(a, basicAuthA) == ApplyDigest(b, basicAuthB) <==> SameApplied(a, basicAuthA, b, basicAuthB)
  {
    hide ApplyDigest, SameApart, Digestible;
    DigestExactly(a, basicAuthA, b, basicAuthB);
    QualifiedNameInjective(a, b);
  }

  /** Otherwise different names can hash the same text: "a/b" with "c", and "a" with "b/c". The API's pattern for names
      admits no slash, so the second of these cannot be submitted; the function by itself does not tell them apart. */
  lemma SlashAmbiguity(a: ShareSpec, b: ShareSpec, basicAuth: seq<string>)
    requires a.nameSelection == Some(NameSelection("a/b", "c"))
    requires b == a.(nameSelection := Some(NameSelection("a", "b/c")))
    ensures ApplyDigest(a, basicAuth) == ApplyDigest(b, basicAuth) && ReservedName(a) != ReservedName(b)
  {
    assert "name=" + "a/b" + "/" + "c" == "name=" + "a" + "/" + "b/c";
    assert FixedLines(a) == FixedLines(b);
    assert |"c"| != |"b/c"|;
  }
}
