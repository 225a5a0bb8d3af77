/** Renaming a share leaves no reserved name behind. */
module Rename {
  import opened Options
  import Conditions
  import opened Convergence
  import opened Digest
  import opened FrontendNames
  import opened Inventory
  import opened ReleaseEvidence
  import opened ShareFrames
  import opened Shares
  import opened ShareSteps
  import opened Strings
  import opened Targets
  import opened Zrok

  // ----- what reclaiming deletes -----

  /** What reclaiming a name served no more does when nothing fails: the name is deleted under the namespace token
      of the spec as it is now, unless it is another account's there. */
  lemma ReclaimNames(s: St, oldName: string, wasReserved: bool, p: Plan)
    requires p.recordLands && p.reclaim == NoFault && p.reclaimLands && s.cr.spec.reclaimPolicy != Retain
    requires s.cr.reclaimName == ""
    requires RemoteByName(s.net.remote, oldName).None?
    ensures var r, key := ReclaimPreviousName(s, oldName, wasReserved, p), NameKey(NamespaceToken(s.cr.spec), oldName);
            && r.More? && r.s.cr == s.cr && r.s.net.remote == s.net.remote
            && r.s.net.names
               == (if wasReserved && oldName != "" && oldName != ReservedName(s.cr.spec) && key !in s.net.taken
                                 then s.net.names - {key} else s.net.names)
  {
    hide NamespaceToken, ReservedName;
  }

  // ----- the runs -----

  /** The labels the resource ever takes, the namespace token they live in, and the names the account has besides. */
  datatype Setting = Setting(pool: set<string>, ns: string, base: set<NameKey>)

  predicate IsLabel(name: string) {
    name != "" && '.' !in name && ToLower(name) == name
  }

  ghost predicate ValidSetting(k: Setting) {
    k.ns != "" && forall name :: name in k.pool ==> IsLabel(name) && NameKey(k.ns, name) !in k.base
  }

  datatype Move =
    | RenameTo(name: string)
    | Wipe(agent: seq<ShareDetail>)
    | Sync(plan: Plan)

  function Selected(spec: ShareSpec, ns: string, name: string): ShareSpec {
    spec.(nameSelection := Some(NameSelection(ns, name)))
  }

  function Play(s: St, k: Setting, m: Move): St {
    match m
    case RenameTo(name) => s.(cr := s.cr.(spec := Selected(s.cr.spec, k.ns, name), generation := s.cr.generation + 1))
    case Wipe(agent) => s.(net := s.net.(agent := agent))
    case Sync(p) => Reconcile(s, false, p).s
  }

  function PlayAll(s: St, k: Setting, moves: seq<Move>): St {
    if moves == [] then s else Play(PlayAll(s, k, moves[..|moves| - 1]), k, moves[|moves| - 1])
  }

  /** Every endpoint carries the label. */
  predicate ServedAs(endpoints: seq<string>, name: string) {
    && endpoints != []
    && forall i :: 0 <= i < |endpoints| ==>
         '.' in FrontendHost(endpoints[i]) && FrontendNameFromEndpoint(endpoints[i]) == name
  }

  /** Renames stay in the pool; the agent only loses entries; reconciles are free of faults and serve what is asked
      for. */
  ghost predicate Fair(s: St, k: Setting, m: Move, auth: seq<string>) {
    match m
    case RenameTo(name) => name in k.pool
    case Wipe(agent) => forall d :: d in agent ==> d in s.net.agent
    case Sync(p) => Fits(s, p, auth) && ServedAs(p.newEndpoints, ReservedName(s.cr.spec))
  }

  ghost predicate FairPlay(s: St, k: Setting, moves: seq<Move>, auth: seq<string>) {
    moves == [] || (FairPlay(s, k, moves[..|moves| - 1], auth)
                    && Fair(PlayAll(s, k, moves[..|moves| - 1]), k, moves[|moves| - 1], auth))
  }

  // ----- the invariant -----

  /** A public, reserving, reclaiming resource in a coherent world whose other shares carry none of its labels. */
  ghost predicate Scene(s: St, k: Setting) {
    && ValidSetting(k) && TokensIdentify(s.net) && AgentBacked(s.net) && AgentTokens(s.net)
    && (forall key :: key in s.net.names ==> key.namespace != "")
    && (forall name :: name in k.pool ==> NameKey(k.ns, name) !in s.net.taken)
    && s.cr.spec.nameSelection.Some? && s.cr.spec.nameSelection.value.namespace == k.ns
    && ReservedName(s.cr.spec) in k.pool
    && DesiredShareMode(s.cr.spec) == Public && s.cr.spec.privateShareToken == "" && s.cr.spec.reclaimPolicy != Retain
    && s.cr.spec.upstream != "" && s.cr.reclaimName == "" && s.cr.status.observedGeneration <= s.cr.generation
  }

  ghost predicate NoLabelOn(remote: seq<RemoteShare>, k: Setting, but: string) {
    forall r, name :: r in remote && r.token != but && name in k.pool ==> !AnyMatches(r.frontendEndpoints, name)
  }

  /** The names held are those from before and `name`, which is reserved. */
  predicate HoldsJust(names: map<NameKey, bool>, k: Setting, name: string) {
    names.Keys == k.base + {NameKey(k.ns, name)} && names[NameKey(k.ns, name)]
  }

  /** Nothing reserved, nothing served. */
  ghost predicate Unbound(s: St, k: Setting) {
    && Scene(s, k) && s.cr.status.shareToken == "" && s.cr.status.observedGeneration < s.cr.generation
    && NoLabelOn(s.net.remote, k, "") && s.net.names.Keys == k.base
  }

  /** One share, served under `name`, and one name reserved: that one. */
  ghost predicate Bound(s: St, k: Setting, name: string) {
    var token := s.cr.status.shareToken;
    && Scene(s, k) && s.cr.finalizer && name in k.pool && token != "" && s.cr.status.reservation == Reserved
    && RemoteByToken(s.net.remote, token).Some?
    && ServedAs(RemoteByToken(s.net.remote, token).value.frontendEndpoints, name)
    && NoLabelOn(s.net.remote, k, token) && HoldsJust(s.net.names, k, name)
    && (s.cr.status.observedGeneration == s.cr.generation ==> name == ReservedName(s.cr.spec))
  }

  ghost predicate OnCourse(s: St, k: Setting) {
    Unbound(s, k) || exists name :: Bound(s, k, name)
  }

  // ----- labels on endpoints -----

  lemma LabelsOf(endpoints: seq<string>, name: string, other: string)
    requires ServedAs(endpoints, name) && IsLabel(name) && IsLabel(other)
    ensures AnyMatches(endpoints, other) <==> other == name
    ensures FrontendNameFromEndpoints(endpoints) == name
  {
    hide FrontendEndpointMatchesName, FrontendNameFromEndpoint, FrontendHost, ToLower;
    forall i | 0 <= i < |endpoints|
      ensures FrontendEndpointMatchesName(endpoints[i], other) <==> other == name
    {
      NameUrlAgreement(endpoints[i], other);
    }
    assert FrontendEndpointMatchesName(endpoints[0], other) <==> other == name;
  }

  lemma SceneKey(s: St, k: Setting)
    requires Scene(s, k)
    ensures WantedKey(s.cr.spec) == NameKey(k.ns, ReservedName(s.cr.spec)) && NamespaceToken(s.cr.spec) == k.ns
    ensures ReservedName(s.cr.spec) != "" && IsLabel(ReservedName(s.cr.spec)) && WantedKey(s.cr.spec) !in s.net.taken
    ensures !InvalidSelection(s.cr.spec)
  {}

  // ----- one reconcile -----

  lemma NamesHere(s: St, k: Setting, p: Plan, auth: seq<string>)
    requires Scene(s, k) && Fits(s, p, auth)
    ensures var r := Names(s, p);
            && r.More? && r.s.cr == s.cr && r.s.net.names == s.net.names[WantedKey(s.cr.spec) := true]
            && r.s.net.remote == s.net.remote && r.s.net.agent == s.net.agent && r.s.net.taken == s.net.taken
  {
    hide EnsureReservedName, Scene, UpstreamBarred, TargetsEqual, WantedKey;
    SceneKey(s, k);
    EnsuredOk(s, p);
    assert s.cr.reclaimName == "" by { SceneUnclaimed(s, k); }
  }

  lemma SceneUnclaimed(s: St, k: Setting)
    requires Scene(s, k)
    ensures s.cr.reclaimName == ""
  {}

  lemma NoHolder(s: St, k: Setting)
    requires Scene(s, k) && NoLabelOn(s.net.remote, k, "")
    ensures RemoteByName(s.net.remote, ReservedName(s.cr.spec)).None? && Coherent(s)
  {
    hide AnyMatches, AgentBacked, AgentTokens;
    SceneKey(s, k);
    var name := ReservedName(s.cr.spec);
    forall r | r in s.net.remote
      ensures !AnyMatches(r.frontendEndpoints, name)
    {
      assert r.token != "" && name in k.pool;
    }
  }

  /** The world after a share has been added under the wanted label. */
  lemma AddedScene(s: St, k: Setting, token: string, endpoints: seq<string>)
    requires Scene(s, k) && NoLabelOn(s.net.remote, k, "") && token != ""
    requires forall r :: r in s.net.remote ==> r.token != token
    ensures var t := s.(net := AddShare(s.net, s.cr.id, s.cr.spec, Public, token, endpoints));
            && Scene(t, k) && t.net.names == s.net.names && NoLabelOn(t.net.remote, k, token)
            && RemoteByToken(t.net.remote, token).Some?
            && RemoteByToken(t.net.remote, token).value.frontendEndpoints == endpoints
  {
    hide AnyMatches, AgentBacked, AgentTokens, ValidSetting, ModeText, DesiredBackendMode;
    NoHolder(s, k);
    SceneKey(s, k);
    assert forall r :: r in s.net.remote ==> !AnyMatches(r.frontendEndpoints, ReservedName(s.cr.spec)) by {
      NoMatchNoHolder(s);
    }
    AddedCoherent(s, Public, token, endpoints);
    var net := AddShare(s.net, s.cr.id, s.cr.spec, Public, token, endpoints);
    var r := CreatedRemote(s.cr.spec, Public, token, endpoints);
    assert r in net.remote && forall q :: q in net.remote ==> q in s.net.remote || q == r;
    assert RemoteByToken(net.remote, token).Some? && RemoteByToken(net.remote, token).value == r;
  }

  /** Marking the bound share ready keeps it bound, now to the wanted name. */
  lemma MarkBinds(s: St, k: Setting, token: string, endpoints: seq<string>, digest: string, p: Plan)
    requires Scene(s, k) && s.cr.finalizer && p.readyLands && p.digestLands && token != ""
    requires RemoteByToken(s.net.remote, token).Some?
    requires ServedAs(RemoteByToken(s.net.remote, token).value.frontendEndpoints, ReservedName(s.cr.spec))
    requires NoLabelOn(s.net.remote, k, token) && HoldsJust(s.net.names, k, ReservedName(s.cr.spec))
    ensures var t := MarkShareReady(s, token, endpoints, digest, p).s;
            Bound(t, k, ReservedName(s.cr.spec)) && t.cr.spec == s.cr.spec
            && t.cr.status.observedGeneration == t.cr.generation
  {
    hide AnyMatches, ServedAs, AgentBacked, AgentTokens, TokensIdentify, ValidSetting, ReadyConditions, NoLabelOn;
    SceneKey(s, k);
  }

  /** With no share under any label, creation binds the wanted name. */
  lemma CreateBinds(s: St, k: Setting, digest: string, p: Plan)
    requires Scene(s, k) && s.cr.finalizer && p.env.Env? && p.share == NoFault && p.readyLands && p.digestLands
    requires p.newToken != "" && forall r :: r in s.net.remote ==> r.token != p.newToken
    requires ServedAs(p.newEndpoints, ReservedName(s.cr.spec))
    requires NoLabelOn(s.net.remote, k, "") && HoldsJust(s.net.names, k, ReservedName(s.cr.spec))
    ensures var t := Create(s, digest, p).s;
            Bound(t, k, ReservedName(s.cr.spec)) && t.cr.spec == s.cr.spec
            && t.cr.status.observedGeneration == t.cr.generation
  {
    hide AnyMatches, ServedAs, AddShare, MarkShareReady, NoLabelOn, Bound, HandleShareConflict, RemoteByName;
    NoHolder(s, k);
    AddedScene(s, k, p.newToken, p.newEndpoints);
    var net := AddShare(s.net, s.cr.id, s.cr.spec, Public, p.newToken, p.newEndpoints);
    assert Create(s, digest, p) == MarkShareReady(s.(net := net), p.newToken, p.newEndpoints, digest, p);
    MarkBinds(s.(net := net), k, p.newToken, p.newEndpoints, digest, p);
  }

  // ----- from an unbound state -----

  /** No share is served under a label, and of the names none is held but those from before and, perhaps, the wanted
      one. */
  ghost predicate Idle(s: St, k: Setting) {
    && Scene(s, k) && s.cr.status.shareToken == "" && NoLabelOn(s.net.remote, k, "")
    && s.net.names.Keys + {WantedKey(s.cr.spec)} == k.base + {WantedKey(s.cr.spec)}
  }

  lemma IdleClassified(s: St, k: Setting)
    requires Idle(s, k)
    ensures Classify(s.cr, FullInventory(s.net)) == Classified(None, None, false)
    ensures !HeldByForeigner(s.cr, FullInventory(s.net))
  {
    hide AnyMatches, TargetsEqual;
    NoHolder(s, k);
    NoAgentUnderLabel(s, k, "");
  }

  /** The agent serves nothing under a label but, perhaps, the share `but`. */
  lemma NoAgentUnderLabel(s: St, k: Setting, but: string)
    requires Scene(s, k) && NoLabelOn(s.net.remote, k, but)
    ensures AgentByName(s.net.agent, ReservedName(s.cr.spec)).Some? ==>
              AgentByName(s.net.agent, ReservedName(s.cr.spec)).value.token == but && but != ""
  {
    hide AnyMatches, ValidSetting;
    var name := ReservedName(s.cr.spec);
    forall d | d in s.net.agent && AnyMatches(d.frontendEndpoints, name)
      ensures d.token == but && but != ""
    {
      var r :| r in s.net.remote && r.token == d.token && r.target == d.backendEndpoint
               && r.frontendEndpoints == d.frontendEndpoints;
      assert AnyMatches(r.frontendEndpoints, name) && name in k.pool && r.token != "";
    }
  }

  lemma IdleSync(s: St, k: Setting, p: Plan, auth: seq<string>)
    requires Idle(s, k) && s.cr.finalizer && Fits(s, p, auth) && ServedAs(p.newEndpoints, ReservedName(s.cr.spec))
    ensures var t := Reconcile(s, false, p).s;
            Bound(t, k, ReservedName(s.cr.spec)) && t.cr.spec == s.cr.spec
            && t.cr.status.observedGeneration == t.cr.generation
  {
    hide Reconcile, Names, TakeDown, Create, Classify, ApplyDigest, AnyMatches, ServedAs, Bound, UpstreamBarred;
    hide WantedKey, Scene;
    hide HeldByForeigner, NoLabelOn, InvalidSelection, FullInventory;
    IdleClassified(s, k);
    NamesHere(s, k, p, auth);
    SceneKey(s, k);
    OnePass(s, p, auth);
    var named := Names(s, p).s;
    var digest, cls := ApplyDigest(s.cr.spec, auth), Classify(s.cr, FullInventory(s.net));
    NotAdoptable(named.cr, cls, digest);
    NothingToTake(named, cls, p);
    SameScene(s, named, k);
    SameLabels(s, named, k, "");
    CreateBinds(named, k, digest, p);
  }

  lemma SameScene(s: St, t: St, k: Setting)
    requires Scene(s, k) && t.cr == s.cr && t.net.remote == s.net.remote && t.net.agent == s.net.agent
    requires t.net.taken == s.net.taken
    requires forall key :: key in t.net.names ==> key in s.net.names || key == WantedKey(s.cr.spec)
    ensures Scene(t, k)
  {
    SceneKey(s, k);
  }

  lemma SameLabels(s: St, t: St, k: Setting, but: string)
    requires NoLabelOn(s.net.remote, k, but) && t.net.remote == s.net.remote
    ensures NoLabelOn(t.net.remote, k, but)
  {}

  // ----- from a bound state -----

  lemma BoundClassified(s: St, k: Setting, name: string)
    requires Bound(s, k, name)
    ensures !HeldByForeigner(s.cr, FullInventory(s.net))
    ensures var token := s.cr.status.shareToken;
            Classify(s.cr, FullInventory(s.net))
            == Classified(RemoteByToken(s.net.remote, token), AgentByToken(s.net.agent, token), false)
  {
    hide AnyMatches, TargetsEqual, ServedAs;
    NoAgentUnderLabel(s, k, s.cr.status.shareToken);
    OnlyOwnUnderLabel(s, k, s.cr.status.shareToken);
  }

  lemma OnlyOwnUnderLabel(s: St, k: Setting, but: string)
    requires Scene(s, k) && NoLabelOn(s.net.remote, k, but)
    ensures RemoteByName(s.net.remote, ReservedName(s.cr.spec)).Some? ==>
              RemoteByName(s.net.remote, ReservedName(s.cr.spec)).value.token == but
  {
    hide AnyMatches, ValidSetting;
  }

  /** What the agent serves of the bound share carries the bound name, and so does what it is live under. */
  lemma BoundLive(s: St, k: Setting, name: string)
    requires Bound(s, k, name)
    ensures var cls := Classified(RemoteByToken(s.net.remote, s.cr.status.shareToken),
                                  AgentByToken(s.net.agent, s.cr.status.shareToken), false);
            && ReleaseTarget(s.cr, cls) == Some(s.cr.status.shareToken)
            && LiveFrontendName(s.cr, cls) == name
            && (cls.agent.Some? ==> cls.agent.value.frontendEndpoints == cls.remote.value.frontendEndpoints)
  {
    hide AnyMatches, TargetsEqual, ServedAs, ValidSetting, NoLabelOn, FrontendNameFromEndpoint;
    var r := RemoteByToken(s.net.remote, s.cr.status.shareToken).value;
    PoolLabel(s, k, name);
    LabelsOf(r.frontendEndpoints, name, name);
  }

  lemma PoolLabel(s: St, k: Setting, name: string)
    requires Scene(s, k) && name in k.pool
    ensures IsLabel(name) && NameKey(k.ns, name) !in k.base && NameKey(k.ns, name) !in s.net.taken
  {}

  lemma TakeDownNames(s: St, cls: Classified, token: string, p: Plan)
    requires p.env.Env? && p.env.zid != "" && p.releaseAnswers && p.unshare == NoFault && p.clearLands
    requires p.recordLands && p.reclaim == NoFault && p.reclaimLands && s.cr.spec.reclaimPolicy != Retain
    requires s.cr.reclaimName == ""
    requires token != "" && ReleaseTarget(s.cr, cls) == Some(token) && s.cr.status.reservation == Reserved
    requires RemoteByName(WithoutRemote(s.net.remote, token), LiveFrontendName(s.cr, cls)).None?
    ensures var r, former := TakeDown(s, cls, p), LiveFrontendName(s.cr, cls);
            && r.More? && r.s.cr == Cleared(s.cr, p.now) && r.s.net.remote == WithoutRemote(s.net.remote, token)
            && r.s.net.names
               == if former != "" && former != ReservedName(s.cr.spec)
                  && NameKey(NamespaceToken(s.cr.spec), former) !in s.net.taken
                  then s.net.names - {NameKey(NamespaceToken(s.cr.spec), former)} else s.net.names
  {
    hide ReleaseTarget, LiveFrontendName, ReclaimPreviousName, Conditions.Apply, AnyMatches, NamespaceToken;
    hide RemoteByName;
    var released := ReleaseAndClear(s, token, p);
    assert released == More(St(Cleared(s.cr, p.now), released.s.net));
    ReclaimNames(released.s, LiveFrontendName(s.cr, cls), true, p);
  }

  /** A bound share that is not adopted is taken down together with the name it was live under. */
  lemma BoundTakeDown(s: St, named: St, k: Setting, name: string, p: Plan, auth: seq<string>)
    requires Bound(s, k, name) && FaultFree(p, auth) && Scene(named, k) && named.cr == s.cr
    requires named.net.remote == s.net.remote && named.net.agent == s.net.agent
    requires named.net.names.Keys == s.net.names.Keys + {WantedKey(s.cr.spec)}
    requires WantedKey(s.cr.spec) in named.net.names && named.net.names[WantedKey(s.cr.spec)]
    ensures var cls := Classified(RemoteByToken(s.net.remote, s.cr.status.shareToken),
                                  AgentByToken(s.net.agent, s.cr.status.shareToken), false);
            var r := TakeDown(named, cls, p);
            && r.More? && r.s.cr == Cleared(s.cr, p.now) && Scene(r.s, k)
            && NoLabelOn(r.s.net.remote, k, "") && HoldsJust(r.s.net.names, k, ReservedName(s.cr.spec))
            && (forall q :: q in r.s.net.remote ==> q in s.net.remote)
  {
    hide AnyMatches, TargetsEqual, ServedAs, TakeDown, LiveFrontendName, ReleaseTarget, Conditions.Apply, AgentBacked;
    hide AgentTokens;
    hide TokensIdentify, FaultFree, ValidSetting, NamespaceToken, RemoteByToken, AgentByToken, Scene, InvalidSelection;
    var token := s.cr.status.shareToken;
    var cls := Classified(RemoteByToken(s.net.remote, token), AgentByToken(s.net.agent, token), false);
    BoundLive(s, k, name);
    PoolLabel(s, k, name);
    PoolLabel(named, k, name);
    SceneKey(s, k);
    SceneMeans(named, k);
    PlanMeans(p, auth);
    NoneElsewhere(s, k, name);
    TakeDownOk(named, cls, token, p, auth);
    TakeDownNames(named, cls, token, p);
    var r := TakeDown(named, cls, p);
    FewerScene(named, r.s, k, token, p.now);
  }

  lemma PlanMeans(p: Plan, auth: seq<string>)
    requires FaultFree(p, auth)
    ensures p.env.Env? && p.env.zid != "" && p.releaseAnswers && p.unshare == NoFault && p.clearLands
    ensures p.recordLands && p.reclaim == NoFault && p.reclaimLands && p.readyLands && p.digestLands
    ensures p.share == NoFault
  {}

  lemma SceneMeans(s: St, k: Setting)
    requires Scene(s, k)
    ensures s.cr.reclaimName == "" && s.cr.spec.reclaimPolicy != Retain
  {}

  lemma NoneElsewhere(s: St, k: Setting, name: string)
    requires name in k.pool && NoLabelOn(s.net.remote, k, s.cr.status.shareToken)
    ensures RemoteByName(WithoutRemote(s.net.remote, s.cr.status.shareToken), name).None?
    ensures forall r :: r in s.net.remote && r.token != s.cr.status.shareToken ==>
              !AnyMatches(r.frontendEndpoints, name)
  {
    hide AnyMatches;
  }

  lemma FewerScene(s: St, t: St, k: Setting, token: string, now: int)
    requires Scene(s, k) && t.cr == Cleared(s.cr, now) && t.net.taken == s.net.taken
    requires NoLabelOn(s.net.remote, k, token)
    requires t.net.remote == WithoutRemote(s.net.remote, token)
    requires t.net.agent == WithoutAgent(WithoutAgent(s.net.agent, token), token)
    requires forall key :: key in t.net.names ==> key in s.net.names
    ensures Scene(t, k) && NoLabelOn(t.net.remote, k, "")
  {
    hide AnyMatches, Conditions.Apply, ValidSetting;
    forall d | d in t.net.agent
      ensures exists r :: r in t.net.remote && r.token == d.token && r.target == d.backendEndpoint
                          && r.frontendEndpoints == d.frontendEndpoints
    {
      var r :| r in s.net.remote && r.token == d.token && r.target == d.backendEndpoint
               && r.frontendEndpoints == d.frontendEndpoints;
      assert r in t.net.remote;
    }
  }

  /** One fault-free reconcile of a bound share, renamed or not, its agent entry there or gone, binds the wanted
      name and reserves no other. */
  lemma BoundSync(s: St, k: Setting, name: string, p: Plan, auth: seq<string>)
    requires Bound(s, k, name) && Fits(s, p, auth) && ServedAs(p.newEndpoints, ReservedName(s.cr.spec))
    ensures var t := Reconcile(s, false, p).s;
            Bound(t, k, ReservedName(s.cr.spec)) && t.cr.spec == s.cr.spec
            && t.cr.status.observedGeneration == t.cr.generation
  {
    hide Reconcile, Names, TakeDown, Create, Classify, ApplyDigest, AnyMatches, ServedAs, Bound, UpstreamBarred;
    hide WantedKey, Scene;
    hide HeldByForeigner, NoLabelOn, InvalidSelection, FullInventory, AdoptableAgentShare, FaultFree, MarkShareReady;
    hide Cleared;
    BoundMeans(s, k, name);
    BoundClassified(s, k, name);
    NamesHere(s, k, p, auth);
    SceneKey(s, k);
    OnePass(s, p, auth);
    PlanMeans(p, auth);
    var named := Names(s, p).s;
    var digest, cls := ApplyDigest(s.cr.spec, auth), Classify(s.cr, FullInventory(s.net));
    SameScene(s, named, k);
    var adopted := AdoptableAgentShare(named.cr, cls, digest);
    if adopted.Some? {
      BoundAdopts(s, named, k, name, digest, p);
    } else {
      BoundTakeDown(s, named, k, name, p, auth);
      ClearedKeeps(s.cr, p.now);
      CreateBinds(TakeDown(named, cls, p).s, k, digest, p);
    }
  }

  lemma BoundMeans(s: St, k: Setting, name: string)
    requires Bound(s, k, name)
    ensures Scene(s, k) && s.cr.finalizer && name in k.pool
  {}

  lemma ClearedKeeps(c: ZrokShare, now: int)
    ensures var d := Cleared(c, now); d.spec == c.spec && d.finalizer == c.finalizer && d.generation == c.generation
  {}

  lemma BoundAdopts(s: St, named: St, k: Setting, name: string, digest: string, p: Plan)
    requires Bound(s, k, name) && Scene(named, k) && named.cr == s.cr && p.readyLands && p.digestLands
    requires named.net.remote == s.net.remote && named.net.names == s.net.names[WantedKey(s.cr.spec) := true]
    requires var cls := Classified(RemoteByToken(s.net.remote, s.cr.status.shareToken),
                                   AgentByToken(s.net.agent, s.cr.status.shareToken), false);
             AdoptableAgentShare(named.cr, cls, digest).Some?
    ensures var cls := Classified(RemoteByToken(s.net.remote, s.cr.status.shareToken),
                                  AgentByToken(s.net.agent, s.cr.status.shareToken), false);
            AdoptableAgentShare(named.cr, cls, digest) == cls.agent && cls.agent.Some?
    ensures var d := AgentByToken(s.net.agent, s.cr.status.shareToken).value;
            var t := MarkShareReady(named, d.token, d.frontendEndpoints, digest, p).s;
            Bound(t, k, ReservedName(s.cr.spec)) && t.cr.spec == s.cr.spec
            && t.cr.status.observedGeneration == t.cr.generation
  {
    hide AnyMatches, ServedAs, MarkShareReady, ValidSetting, TargetsEqual, EqualFold, AgentTargetOK, ShareDigestDrifted;
    hide LiveFrontendName;
    hide AgentBacked, AgentTokens, TokensIdentify, InvalidSelection, WantedKey;
    var d := AgentByToken(s.net.agent, s.cr.status.shareToken).value;
    BoundLive(s, k, name);
    SceneKey(s, k);
    PoolLabel(s, k, name);
    LabelsOf(d.frontendEndpoints, name, ReservedName(s.cr.spec));
    assert name == ReservedName(s.cr.spec);
    MarkBinds(named, k, d.token, d.frontendEndpoints, digest, p);
  }

  // ----- runs -----

  lemma StaysOnCourse(s: St, k: Setting, m: Move, auth: seq<string>)
    requires OnCourse(s, k) && Fair(s, k, m, auth)
    ensures OnCourse(Play(s, k, m), k)
    ensures m.Sync? && s.cr.finalizer ==>
              Bound(Play(s, k, m), k, ReservedName(s.cr.spec)) && Play(s, k, m).cr.spec == s.cr.spec
  {
    hide Reconcile, Fits, AnyMatches, ServedAs, Scene, NoLabelOn, Bound;
    match m
    case RenameTo(name) => RenameStays(s, k, name);
    case Wipe(agent) => WipeStays(s, k, agent);
    case Sync(p) =>
      if s.cr.finalizer {
        if Unbound(s, k) {
          IdleSync(s, k, p, auth);
        } else {
          var name :| Bound(s, k, name);
          BoundSync(s, k, name, p, auth);
        }
      } else {
        NoFinalizerUnbound(s, k);
        FinalizerAdded(s, k, p, auth);
      }
  }

  lemma NoFinalizerUnbound(s: St, k: Setting)
    requires OnCourse(s, k) && !s.cr.finalizer
    ensures Unbound(s, k)
  {
    hide Scene, NoLabelOn, ServedAs;
  }

  lemma FinalizerAdded(s: St, k: Setting, p: Plan, auth: seq<string>)
    requires Unbound(s, k) && !s.cr.finalizer && Fits(s, p, auth)
    ensures Unbound(Reconcile(s, false, p).s, k)
  {
    hide AnyMatches, Converge, ApplyDigest;
  }

  lemma RenameStays(s: St, k: Setting, name: string)
    requires OnCourse(s, k) && name in k.pool
    ensures OnCourse(Play(s, k, RenameTo(name)), k)
  {
    hide AnyMatches, ServedAs, Reconcile;
    var t := Play(s, k, RenameTo(name));
    if Unbound(s, k) {
      assert Unbound(t, k);
    } else {
      var former :| Bound(s, k, former);
      assert Bound(t, k, former);
    }
  }

  lemma WipeStays(s: St, k: Setting, agent: seq<ShareDetail>)
    requires OnCourse(s, k) && forall d :: d in agent ==> d in s.net.agent
    ensures OnCourse(Play(s, k, Wipe(agent)), k)
  {
    hide AnyMatches, ServedAs, Reconcile;
    var t := Play(s, k, Wipe(agent));
    if Unbound(s, k) {
      assert Unbound(t, k);
    } else {
      var name :| Bound(s, k, name);
      assert Bound(t, k, name);
    }
  }

  lemma {:induction false} RunStaysOnCourse(s: St, k: Setting, moves: seq<Move>, auth: seq<string>)
    requires OnCourse(s, k) && FairPlay(s, k, moves, auth)
    ensures OnCourse(PlayAll(s, k, moves), k)
  {
    hide Play, Fair, OnCourse;
    if moves != [] {
      var earlier := moves[..|moves| - 1];
      RunStaysOnCourse(s, k, earlier, auth);
      StaysOnCourse(PlayAll(s, k, earlier), k, moves[|moves| - 1], auth);
    }
  }

  /** Every such run can start with a new resource in an account without shares. */
  lemma NewIsUnbound(s: St, k: Setting)
    requires ValidSetting(k) && s.net.remote == [] && s.net.agent == [] && s.net.names.Keys == k.base
    requires s.net.taken == {}
    requires forall key :: key in k.base ==> key.namespace != ""
    requires s.cr == s.cr.(generation := 1, reclaimName := "", status := ShareStatus(0, "", [], "", Unreserved, []))
    requires s.cr.spec.nameSelection.Some? && s.cr.spec.nameSelection.value.namespace == k.ns
    requires ReservedName(s.cr.spec) in k.pool
    requires DesiredShareMode(s.cr.spec) == Public && s.cr.spec.privateShareToken == ""
    requires s.cr.spec.reclaimPolicy != Retain
    requires s.cr.spec.upstream != ""
    ensures Unbound(s, k)
  {
    hide AnyMatches;
    assert s.cr.generation == 1 && s.cr.reclaimName == "" && s.cr.status == ShareStatus(0, "", [], "", Unreserved, []);
  }

  /** Any number of renames, agent restarts and reconciles: whenever the status speaks of the spec as it is, the
      account holds exactly the names it held before, and the wanted one, reserved. Old names never pile up and the
      wanted one is never missing; in between there is at most one name, the one the share is still served under. */
  lemma NamesConserved(s: St, k: Setting, moves: seq<Move>, auth: seq<string>)
    requires Unbound(s, k) && FairPlay(s, k, moves, auth)
    ensures var t := PlayAll(s, k, moves);
            && (t.cr.status.observedGeneration == t.cr.generation ==>
                  HoldsJust(t.net.names, k, ReservedName(t.cr.spec)))
            && (t.net.names.Keys == k.base || exists name :: name in k.pool && HoldsJust(t.net.names, k, name))
            && (t.net.names.Keys == k.base ==> t.cr.status.shareToken == "")
  {
    hide PlayAll, FairPlay, ServedAs, NoLabelOn;
    RunStaysOnCourse(s, k, moves, auth);
    var t := PlayAll(s, k, moves);
    CourseMeans(t, k);
  }

  lemma CourseMeans(t: St, k: Setting)
    requires OnCourse(t, k)
    ensures t.cr.status.observedGeneration == t.cr.generation ==> HoldsJust(t.net.names, k, ReservedName(t.cr.spec))
    ensures t.net.names.Keys == k.base || exists name :: name in k.pool && HoldsJust(t.net.names, k, name)
    ensures t.net.names.Keys == k.base ==> t.cr.status.shareToken == ""
  {
    hide ServedAs, NoLabelOn;
    if !Unbound(t, k) {
      var name :| Bound(t, k, name);
      assert NameKey(k.ns, name) in t.net.names.Keys;
    }
  }
}
