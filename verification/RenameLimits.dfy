/** The renames that do leave a reserved name behind, and exactly which. */
module RenameLimits {
  import opened Options
  import Conditions
  import opened Convergence
  import opened Deletion
  import opened Digest
  import opened Inventory
  import opened ReleaseEvidence
  import opened Rename
  import opened ShareFrames
  import opened Shares
  import opened ShareSteps
  import opened Strings
  import opened Targets
  import opened Zrok

  // ----- another namespace, or none -----

  function Reselect(s: St, sel: Option<NameSelection>): St {
    s.(cr := s.cr.(spec := s.cr.spec.(nameSelection := sel), generation := s.cr.generation + 1))
  }

  /** A share bound and ready under `name`, whose selection is then changed to another name or another namespace, or
      dropped; nobody else serves the new name. */
  ghost predicate Reselected(s: St, k: Setting, name: string, sel: Option<NameSelection>, p: Plan, auth: seq<string>) {
    var e := Reselect(s, sel);
    var wanted := ReservedName(e.cr.spec);
    && Bound(s, k, name) && ReservedName(s.cr.spec) == name && s.cr.appliedDigest == ApplyDigest(s.cr.spec, auth)
    && Digestible(s.cr.spec, auth) && Digestible(e.cr.spec, auth) && '/' !in name && '/' !in wanted
    && WantedKey(e.cr.spec) != WantedKey(s.cr.spec) && Fits(e, p, auth)
    && (wanted != "" ==> WantedKey(e.cr.spec) !in s.net.taken
                         && forall r :: r in s.net.remote && r.token != s.cr.status.shareToken ==>
                              !AnyMatches(r.frontendEndpoints, wanted))
  }

  lemma DigestNotEmpty(spec: ShareSpec, auth: seq<string>)
    ensures ApplyDigest(spec, auth) != ""
  {
    var lines := Lines(spec, auth);
    assert lines[0] == FixedLines(spec)[0];
    assert |Written(lines)| >= |Line(lines[0])|;
  }

  /** The new selection shows in the digest, so the share is not adopted as it is. */
  lemma ReselectedDrifts(s: St, k: Setting, name: string, sel: Option<NameSelection>, p: Plan, auth: seq<string>)
    requires Reselected(s, k, name, sel, p, auth)
    ensures var e := Reselect(s, sel); ShareDigestDrifted(e.cr, ApplyDigest(e.cr.spec, auth))
  {
    hide ApplyDigest, Digestible, Bound, Fits, AnyMatches;
    var e := Reselect(s, sel);
    DigestNotEmpty(s.cr.spec, auth);
    DigestOfAdmitted(s.cr.spec, auth, e.cr.spec, auth);
  }

  lemma DriftedNotAdopted(c: ZrokShare, cls: Classified, digest: string)
    requires ShareDigestDrifted(c, digest)
    ensures AdoptableAgentShare(c, cls, digest).None?
  {}

  lemma ReselectedClassified(s: St, k: Setting, name: string, sel: Option<NameSelection>, p: Plan, auth: seq<string>)
    requires Reselected(s, k, name, sel, p, auth)
    ensures var e, token := Reselect(s, sel), s.cr.status.shareToken;
            && !HeldByForeigner(e.cr, FullInventory(e.net))
            && Classify(e.cr, FullInventory(e.net))
               == Classified(RemoteByToken(s.net.remote, token), AgentByToken(s.net.agent, token), false)
  {
    hide TargetsEqual, AnyMatches, ServedAs, ApplyDigest, Digestible, Fits;
    var wanted, token := ReservedName(Reselect(s, sel).cr.spec), s.cr.status.shareToken;
    forall d | d in s.net.agent && AnyMatches(d.frontendEndpoints, wanted) && wanted != ""
      ensures d.token == token
    {
      var r :| r in s.net.remote && r.token == d.token && r.target == d.backendEndpoint
               && r.frontendEndpoints == d.frontendEndpoints;
    }
  }

  lemma BoundUnclaimed(s: St, k: Setting, name: string)
    requires Bound(s, k, name)
    ensures s.cr.reclaimName == "" && s.cr.finalizer && s.cr.spec.reclaimPolicy != Retain
    ensures s.cr.status.reservation == Reserved
    ensures DesiredShareMode(s.cr.spec) == Public && s.cr.spec.privateShareToken == "" && s.cr.status.shareToken != ""
    ensures HoldsJust(s.net.names, k, name) && name in k.pool && Scene(s, k) && Listed(s.net, s.cr.status.shareToken)
  {
    hide AnyMatches, ServedAs;
    var r := RemoteByToken(s.net.remote, s.cr.status.shareToken).value;
    var i :| 0 <= i < |s.net.remote| && s.net.remote[i] == r;
  }

  lemma ReselectedNames(e: St, p: Plan, auth: seq<string>)
    requires FaultFree(p, auth) && e.cr.reclaimName == ""
    requires (ReservedName(e.cr.spec) != "" ==> WantedKey(e.cr.spec) !in e.net.taken)
    ensures var r := Names(e, p);
            && r.More? && r.s.cr == e.cr && r.s.net.remote == e.net.remote && r.s.net.agent == e.net.agent
            && r.s.net.taken == e.net.taken
            && r.s.net.names == if ReservedName(e.cr.spec) == "" then e.net.names
               else e.net.names[WantedKey(e.cr.spec) := true]
  {
    hide EnsureReservedName, WantedKey;
    EnsuredOk(e, p);
  }

  /** Creating a public share brings no unlisted token back. */
  lemma CreateKeepsUnlisted(s: St, digest: string, p: Plan, token: string)
    requires p.env.Env? && DesiredShareMode(s.cr.spec) != ShareMode.Private && token != p.newToken
    requires !Listed(s.net, token)
    ensures !Listed(Create(s, digest, p).s.net, token)
  {
    hide HandleShareConflict, MarkShareReady, Conditions.Apply, ConflictTarget, ConflictView, RemoteByName, ModeText;
    hide DesiredBackendMode;
    var shared := SharePublic(s.net, s.cr.id, s.cr.spec, p.share, p.newToken, p.newEndpoints);
    MarkFrame(s.(net := shared.net), p.newToken, p.newEndpoints, digest, p);
    ConflictFrame(s, digest, p);
  }

  lemma FitsNewToken(s: St, p: Plan, auth: seq<string>)
    requires Fits(s, p, auth)
    ensures FaultFree(p, auth) && !Listed(s.net, p.newToken)
  {}

  lemma SelectionStillValid(s: St, k: Setting, sel: Option<NameSelection>)
    requires Scene(s, k)
    ensures var e := Reselect(s, sel);
            !InvalidSelection(e.cr.spec) && DesiredShareMode(e.cr.spec) == Public
            && e.cr.spec.reclaimPolicy == s.cr.spec.reclaimPolicy
  {}

  /** After any change of the selection one fault-free reconcile takes the share down, records nothing, and leaves
      the old name in place exactly when the namespace token is no longer the one it was reserved under. */
  lemma OldNameStaysExactly(s: St, k: Setting, name: string, sel: Option<NameSelection>, p: Plan, auth: seq<string>)
    requires Reselected(s, k, name, sel, p, auth)
    ensures var e := Reselect(s, sel);
            var t := Reconcile(e, false, p).s;
            && !Listed(t.net, s.cr.status.shareToken) && t.cr.reclaimName == ""
            && (NameKey(k.ns, name) in t.net.names <==> NamespaceToken(e.cr.spec) != k.ns)
  {
    hide Reconcile, Names, TakeDown, Create, Classify, ApplyDigest, AnyMatches, Bound, Fits, UpstreamBarred, Scene;
    hide HeldByForeigner;
    hide InvalidSelection, FullInventory, AdoptableAgentShare, FaultFree, MarkShareReady, Cleared, Listed;
    hide LiveFrontendName, ReleaseTarget;
    hide Digestible, ShareDigestDrifted, DesiredShareMode, RemoteByToken, AgentByToken, RemoteByName;
    var e, token := Reselect(s, sel), s.cr.status.shareToken;
    BoundUnclaimed(s, k, name);
    SceneKey(s, k);
    SelectionStillValid(s, k, sel);
    ReselectedClassified(s, k, name, sel, p, auth);
    ReselectedDrifts(s, k, name, sel, p, auth);
    FitsNewToken(e, p, auth);
    ReselectedNames(e, p, auth);
    OnePass(e, p, auth);
    PlanMeans(p, auth);
    var named := Names(e, p).s;
    var digest, cls := ApplyDigest(e.cr.spec, auth), Classify(e.cr, FullInventory(e.net));
    DriftedNotAdopted(named.cr, cls, digest);
    ReselectedLive(s, k, name, named.cr);
    NoneElsewhereBound(s, k, name);
    TakeDownNames(named, cls, token, p);
    var down := TakeDown(named, cls, p).s;
    NotListed(e.net, down.net, token);
    CreateFrame(down, digest, p);
    ClearedMeans(named.cr, p.now);
    SameListed(s.net, e.net, p.newToken);
    assert token != p.newToken;
    CreateKeepsUnlisted(down, digest, p, token);
    PoolLabel(s, k, name);
    OldKeyStays(s, e, k, name, named.net.names);
  }

  lemma ReselectedLive(s: St, k: Setting, name: string, c: ZrokShare)
    requires Bound(s, k, name) && c.status == s.cr.status && c.spec == s.cr.spec.(nameSelection := c.spec.nameSelection)
    ensures var token := s.cr.status.shareToken;
            var cls := Classified(RemoteByToken(s.net.remote, token), AgentByToken(s.net.agent, token), false);
            ReleaseTarget(c, cls) == Some(token) && LiveFrontendName(c, cls) == name
  {
    hide TargetsEqual, Bound, LiveFrontendName;
    BoundLive(s, k, name);
    var token := s.cr.status.shareToken;
    SameLiveName(s.cr, c, Classified(RemoteByToken(s.net.remote, token), AgentByToken(s.net.agent, token), false));
  }

  lemma NoneElsewhereBound(s: St, k: Setting, name: string)
    requires Bound(s, k, name)
    ensures RemoteByName(WithoutRemote(s.net.remote, s.cr.status.shareToken), name).None?
  {
    hide AnyMatches, ServedAs;
    NoneElsewhere(s, k, name);
  }

  lemma ClearedMeans(c: ZrokShare, now: int)
    ensures var d := Cleared(c, now); d.spec == c.spec && d.reclaimName == c.reclaimName
  {}

  /** Of the names in place, the old one is deleted exactly when it is looked for in its own namespace. */
  lemma OldKeyStays(s: St, e: St, k: Setting, name: string, names: map<NameKey, bool>)
    requires NameKey(k.ns, name) in s.net.names && NameKey(k.ns, name) !in s.net.taken
    requires WantedKey(e.cr.spec) != NameKey(k.ns, name)
    requires names == if ReservedName(e.cr.spec) == "" then s.net.names else s.net.names[WantedKey(e.cr.spec) := true]
    requires name != ""
    ensures var key := NameKey(NamespaceToken(e.cr.spec), name);
            NameKey(k.ns, name) in (if name != ReservedName(e.cr.spec) && key !in s.net.taken then names - {key}
                                    else names)
            <==> NamespaceToken(e.cr.spec) != k.ns
  {
    hide NamespaceToken, ReservedName;
  }

  /** Dropping nameSelection empties the token: the old name stays reserved for good. */
  lemma DroppedSelectionKeepsName(s: St, k: Setting, name: string, p: Plan, auth: seq<string>)
    requires Reselected(s, k, name, None, p, auth)
    ensures var t := Reconcile(Reselect(s, None), false, p).s;
            NameKey(k.ns, name) in t.net.names && t.cr.reclaimName == "" && !Listed(t.net, s.cr.status.shareToken)
  {
    hide Reconcile, Fits, ApplyDigest, Digestible, AnyMatches, ServedAs, NoLabelOn, Listed;
    OldNameStaysExactly(s, k, name, None, p, auth);
  }

  // ----- a name recorded earlier -----

  /** Taking a share down deletes, if any, a name of the current namespace that is not the wanted one. */
  lemma TakeDownDeletes(s: St, cls: Classified, p: Plan, key: NameKey)
    requires p.env.Env? && (key.namespace != NamespaceToken(s.cr.spec) || key.name == ReservedName(s.cr.spec))
    ensures key in TakeDown(s, cls, p).s.net.names <==> key in s.net.names
  {
    hide ReleaseTarget, LiveFrontendName, FlushReclaimName, Conditions.Apply, NamespaceToken;
    var target := ReleaseTarget(s.cr, cls);
    if target.Some? {
      var released := ReleaseAndClear(s, target.value, p);
      if released.More? {
        ReclaimDeletes(released.s, LiveFrontendName(s.cr, cls), s.cr.status.reservation == Reserved, p, key);
      }
    }
  }

  lemma ReclaimDeletes(s: St, oldName: string, wasReserved: bool, p: Plan, key: NameKey)
    requires key.namespace != NamespaceToken(s.cr.spec) || key.name == ReservedName(s.cr.spec)
    ensures key in ReclaimPreviousName(s, oldName, wasReserved, p).s.net.names <==> key in s.net.names
  {
    hide FlushReclaimName, NamespaceToken;
    var noted := St(s.cr.(reclaimName := oldName), s.net.(log := s.net.log + [RecordedReclaim(oldName)]));
    FlushDeletes(noted, p.reclaim, p.reclaimLands, key);
  }

  lemma FlushDeletes(s: St, fault: Fault, lands: bool, key: NameKey)
    requires key.namespace != NamespaceToken(s.cr.spec) || key.name == ReservedName(s.cr.spec)
    ensures key in FlushReclaimName(s, fault, lands).s.net.names <==> key in s.net.names
  {
    hide NamespaceToken, DeleteReply;
  }

  lemma FlushAddsNone(s: St, fault: Fault, lands: bool, key: NameKey)
    requires key !in s.net.names
    ensures key !in FlushReclaimName(s, fault, lands).s.net.names
  {
    hide NamespaceToken, DeleteReply, ReservedName;
  }

  lemma TakeDownAddsNone(s: St, cls: Classified, p: Plan, key: NameKey)
    requires p.env.Env? && key !in s.net.names
    ensures key !in TakeDown(s, cls, p).s.net.names
  {
    hide ReleaseTarget, LiveFrontendName, FlushReclaimName, Conditions.Apply, NamespaceToken, ReservedName;
    var target := ReleaseTarget(s.cr, cls);
    if target.Some? {
      var released := ReleaseAndClear(s, target.value, p);
      var former := LiveFrontendName(s.cr, cls);
      FlushAddsNone(St(released.s.cr.(reclaimName := former),
                       released.s.net.(log := released.s.net.log + [RecordedReclaim(former)])),
                    p.reclaim, p.reclaimLands, key);
    }
  }

  /** What the name stage does to the key of a recorded name that is free to go. */
  lemma FlushedKey(s: St, p: Plan, auth: seq<string>, ns: string)
    requires FaultFree(p, auth) && PendingNameFree(s) && s.cr.reclaimName != ""
    requires ReservedName(s.cr.spec) != "" ==> WantedKey(s.cr.spec) !in s.net.taken
    requires NameKey(ns, s.cr.reclaimName) in s.net.names && NameKey(ns, s.cr.reclaimName) !in s.net.taken
    ensures var r := Names(s, p);
            && r.More? && r.s.cr.spec == s.cr.spec
            && (NameKey(ns, s.cr.reclaimName) in r.s.net.names
                <==> NamespaceToken(s.cr.spec) != ns || s.cr.reclaimName == ReservedName(s.cr.spec))
  {
    hide EnsureReservedName, NamespaceToken, ReservedName, RemoteByName;
    EnsuredOk(s, p);
  }

  /** A name recorded earlier, under namespace `ns`, is deleted by the next fault-free reconcile exactly when the
      namespace token is still `ns` and the name is not wanted again; otherwise the record goes and the name stays. */
  lemma RecordedNameStaysExactly(s: St, p: Plan, auth: seq<string>, ns: string)
    requires Fits(s, p, auth) && s.cr.finalizer && !InvalidSelection(s.cr.spec)
    requires !HeldByForeigner(s.cr, FullInventory(s.net)) && PendingNameFree(s) && s.cr.reclaimName != ""
    requires ReservedName(s.cr.spec) != "" ==> WantedKey(s.cr.spec) !in s.net.taken
    requires NameKey(ns, s.cr.reclaimName) in s.net.names && NameKey(ns, s.cr.reclaimName) !in s.net.taken
    ensures NameKey(ns, s.cr.reclaimName) in Reconcile(s, false, p).s.net.names
       <==> NamespaceToken(s.cr.spec) != ns || s.cr.reclaimName == ReservedName(s.cr.spec)
  {
    hide Reconcile, Names, TakeDown, Create, Classify, ApplyDigest, UpstreamBarred, HeldByForeigner, InvalidSelection;
    hide FullInventory, AdoptableAgentShare, FaultFree, MarkShareReady, PendingNameFree, ReleaseTarget, NamespaceToken;
    FitsNewToken(s, p, auth);
    PlanMeans(p, auth);
    FlushedKey(s, p, auth, ns);
    OnePass(s, p, auth);
    var key := NameKey(ns, s.cr.reclaimName);
    var named := Names(s, p).s;
    var digest, cls := ApplyDigest(s.cr.spec, auth), Classify(s.cr, FullInventory(s.net));
    var adopted := AdoptableAgentShare(named.cr, cls, digest);
    if adopted.Some? {
      MarkFrame(named, adopted.value.token, adopted.value.frontendEndpoints, digest, p);
    } else {
      if key in named.net.names {
        TakeDownDeletes(named, cls, p, key);
      } else {
        TakeDownAddsNone(named, cls, p, key);
      }
      CreateFrame(TakeDown(named, cls, p).s, digest, p);
    }
  }

  // ----- a crash before the name is recorded -----

  /** A fault-free reconcile but that, perhaps, the annotation with the name to be reclaimed does not land. */
  ghost predicate FitsBut(s: St, p: Plan, auth: seq<string>) {
    Fits(s, p.(recordLands := true), auth)
  }

  lemma OnePassBut(s: St, p: Plan, auth: seq<string>)
    requires FitsBut(s, p, auth) && s.cr.finalizer && !InvalidSelection(s.cr.spec)
    requires !HeldByForeigner(s.cr, FullInventory(s.net)) && Names(s, p).More?
    ensures var digest, cls, named := ApplyDigest(s.cr.spec, auth), Classify(s.cr, FullInventory(s.net)), Names(s, p).s;
            AdoptableAgentShare(named.cr, cls, digest).None? && TakeDown(named, cls, p).Done? ==>
              Reconcile(s, false, p) == TakeDown(named, cls, p)
  {
    hide Names, TakeDown, Create, MarkShareReady, HeldByForeigner, MappedAgent, MappedRemote, AdoptableAgentShare;
    hide ApplyDigest;
    hide InvalidSelection, UpstreamBarred, Conditions.Apply;
    assert Admit(s, false, p) == More(s);
  }

  lemma SameNames(s: St, p: Plan)
    ensures Names(s, p.(recordLands := true)) == Names(s, p)
  {}

  /** The share is down, the binding is cleared, and nothing is recorded. */
  lemma CrashTakeDown(s: St, cls: Classified, token: string, p: Plan)
    requires p.env.Env? && p.env.zid != "" && p.releaseAnswers && p.unshare == NoFault && p.clearLands && !p.recordLands
    requires s.cr.spec.reclaimPolicy != Retain && s.cr.reclaimName == ""
    requires token != "" && ReleaseTarget(s.cr, cls) == Some(token) && s.cr.status.reservation == Reserved
    requires LiveFrontendName(s.cr, cls) != "" && LiveFrontendName(s.cr, cls) != ReservedName(s.cr.spec)
    ensures var r := TakeDown(s, cls, p);
            && r.Done? && r.s.cr == Cleared(s.cr, p.now) && r.s.net.remote == WithoutRemote(s.net.remote, token)
            && r.s.net.names == s.net.names && r.s.net.taken == s.net.taken
            && r.s.net.agent == WithoutAgent(WithoutAgent(s.net.agent, token), token)
  {
    hide ReleaseTarget, LiveFrontendName, Conditions.Apply, ReservedName;
    var released := ReleaseAndClear(s, token, p);
    assert released == More(St(Cleared(s.cr, p.now), released.s.net));
  }

  /** The setting in which the old name is just one more name the account has. */
  function Orphaned(k: Setting, name: string): Setting {
    Setting(k.pool - {name}, k.ns, k.base + {NameKey(k.ns, name)})
  }

  lemma OrphanedScene(s: St, k: Setting, name: string)
    requires Scene(s, k) && name in k.pool && ReservedName(s.cr.spec) != name
    ensures Scene(s, Orphaned(k, name))
    ensures NoLabelOn(s.net.remote, k, "") ==> NoLabelOn(s.net.remote, Orphaned(k, name), "")
  {
    hide AnyMatches;
  }

  /** The reconcile that crashes: the renamed share is down and unbound, both names are held, and nothing says so. */
  lemma CrashedSync(s: St, k: Setting, name: string, p: Plan, auth: seq<string>)
    requires Bound(s, k, name) && ReservedName(s.cr.spec) != name && FitsBut(s, p, auth) && !p.recordLands
    ensures var t := Reconcile(s, false, p).s;
            Idle(t, Orphaned(k, name)) && t.cr.finalizer && t.cr.spec == s.cr.spec
            && forall q :: q in t.net.remote ==> q in s.net.remote
  {
    hide Reconcile, Names, TakeDown, Classify, ApplyDigest, AnyMatches, ServedAs, Bound, UpstreamBarred, WantedKey;
    hide Scene, Fits;
    hide HeldByForeigner, NoLabelOn, InvalidSelection, FullInventory, AdoptableAgentShare, FaultFree, Cleared;
    hide LiveFrontendName, ReleaseTarget;
    BoundUnclaimed(s, k, name);
    BoundClassified(s, k, name);
    BoundLive(s, k, name);
    SceneKey(s, k);
    PoolLabel(s, k, name);
    FitsNewToken(s, p.(recordLands := true), auth);
    PlanMeans(p.(recordLands := true), auth);
    NamesHere(s, k, p.(recordLands := true), auth);
    SameNames(s, p);
    OnePassBut(s, p, auth);
    var named := Names(s, p).s;
    var digest, cls := ApplyDigest(s.cr.spec, auth), Classify(s.cr, FullInventory(s.net));
    RenamedNotAdopted(s, k, name, digest);
    CrashTakeDown(named, cls, s.cr.status.shareToken, p);
    var t := TakeDown(named, cls, p).s;
    SameScene(s, named, k);
    NoLabelButOwn(s, k, name);
    SameLabels(s, named, k, s.cr.status.shareToken);
    FewerScene(named, t, k, s.cr.status.shareToken, p.now);
    ClearedUnbound(s.cr, p.now);
    OrphanedScene(t, k, name);
    assert t.net.names.Keys == s.net.names.Keys + {WantedKey(s.cr.spec)};
    assert s.net.names.Keys == Orphaned(k, name).base;
  }

  lemma NoLabelButOwn(s: St, k: Setting, name: string)
    requires Bound(s, k, name)
    ensures NoLabelOn(s.net.remote, k, s.cr.status.shareToken)
  {}

  lemma ClearedUnbound(c: ZrokShare, now: int)
    requires c.status.shareToken != ""
    ensures var d := Cleared(c, now); d.spec == c.spec && d.finalizer == c.finalizer && d.status.shareToken == ""
  {}

  /** An agent share served under the old name only is not what the renamed spec asks for. */
  lemma RenamedNotAdopted(s: St, k: Setting, name: string, digest: string)
    requires Bound(s, k, name) && ReservedName(s.cr.spec) != name
    ensures var token := s.cr.status.shareToken;
            var cls := Classified(RemoteByToken(s.net.remote, token), AgentByToken(s.net.agent, token), false);
            AdoptableAgentShare(s.cr, cls, digest).None?
  {
    hide AnyMatches, ServedAs, ValidSetting, TargetsEqual, EqualFold, AgentTargetOK, ShareDigestDrifted;
    hide LiveFrontendName;
    hide AgentBacked, AgentTokens, TokensIdentify, InvalidSelection, WantedKey, NoLabelOn;
    BoundLive(s, k, name);
    SceneKey(s, k);
    PoolLabel(s, k, name);
    LabelsOf(RemoteByToken(s.net.remote, s.cr.status.shareToken).value.frontendEndpoints, name,
             ReservedName(s.cr.spec));
  }

  /** What held before is held throughout. */
  lemma CourseKeepsBase(t: St, k: Setting, key: NameKey)
    requires OnCourse(t, k) && key in k.base
    ensures key in t.net.names
  {
    hide ServedAs, NoLabelOn, Scene;
    if !Unbound(t, k) {
      var name :| Bound(t, k, name);
    }
    assert key in t.net.names.Keys;
  }

  /** After a crash between the release and the annotation, the next fault-free reconcile makes the share ready
      under its new name, and neither that one nor any number of later ones, renames and agent restarts included,
      deletes the old name. */
  lemma CrashLosesName(s: St, k: Setting, name: string, crash: Plan, next: Plan, moves: seq<Move>, auth: seq<string>)
    requires Bound(s, k, name) && ReservedName(s.cr.spec) != name && FitsBut(s, crash, auth) && !crash.recordLands
    requires var t := Reconcile(s, false, crash).s;
             Fits(t, next, auth) && ServedAs(next.newEndpoints, ReservedName(s.cr.spec))
    requires FairPlay(Reconcile(Reconcile(s, false, crash).s, false, next).s, Orphaned(k, name), moves, auth)
    ensures var u := Reconcile(Reconcile(s, false, crash).s, false, next).s;
            && Bound(u, Orphaned(k, name), ReservedName(s.cr.spec))
            && NameKey(k.ns, name) in PlayAll(u, Orphaned(k, name), moves).net.names
  {
    hide Reconcile, Fits, FitsBut, ServedAs, Bound, Idle, PlayAll, FairPlay, OnCourse;
    CrashedSync(s, k, name, crash, auth);
    var t := Reconcile(s, false, crash).s;
    IdleSync(t, Orphaned(k, name), next, auth);
    var u := Reconcile(t, false, next).s;
    BoundOnCourse(u, Orphaned(k, name), ReservedName(s.cr.spec));
    RunStaysOnCourse(u, Orphaned(k, name), moves, auth);
    CourseKeepsBase(PlayAll(u, Orphaned(k, name), moves), Orphaned(k, name), NameKey(k.ns, name));
  }

  lemma BoundOnCourse(s: St, k: Setting, name: string)
    requires Bound(s, k, name)
    ensures OnCourse(s, k)
  {
    hide Bound;
  }

  /** So, after a rename, two reconciles that are fault-free but for the annotation in the first leave the old name
      reserved exactly when that annotation did not land. */
  lemma LostExactlyByCrash(s: St, k: Setting, name: string, first: Plan, next: Plan, auth: seq<string>)
    requires Bound(s, k, name) && ReservedName(s.cr.spec) != name && FitsBut(s, first, auth)
    requires ServedAs(first.newEndpoints, ReservedName(s.cr.spec))
    requires ServedAs(next.newEndpoints, ReservedName(s.cr.spec))
    requires Fits(Reconcile(s, false, first).s, next, auth)
    ensures NameKey(k.ns, name) in Reconcile(Reconcile(s, false, first).s, false, next).s.net.names
            <==> !first.recordLands
  {
    hide Reconcile, Fits, ServedAs, Bound, FitsBut;
    var t := Reconcile(s, false, first).s;
    var u := Reconcile(t, false, next).s;
    PoolLabelOfBound(s, k, name);
    if first.recordLands {
      assert first == first.(recordLands := true);
      assert Fits(s, first, auth) by { FitsButIsFits(s, first, auth); }
      BoundSync(s, k, name, first, auth);
      BoundSync(t, k, ReservedName(s.cr.spec), next, auth);
      BoundUnclaimed(u, k, ReservedName(s.cr.spec));
      assert NameKey(k.ns, name) in u.net.names <==> NameKey(k.ns, name) in u.net.names.Keys;
    } else {
      assert PlayAll(u, Orphaned(k, name), []) == u;
      CrashLosesName(s, k, name, first, next, [], auth);
    }
  }

  lemma FitsButIsFits(s: St, p: Plan, auth: seq<string>)
    requires FitsBut(s, p, auth) && p.recordLands
    ensures Fits(s, p, auth)
  {
    hide Fits;
    assert p == p.(recordLands := true);
  }

  lemma PoolLabelOfBound(s: St, k: Setting, name: string)
    requires Bound(s, k, name)
    ensures NameKey(k.ns, name) !in k.base
  {
    hide ServedAs, NoLabelOn;
  }
}
