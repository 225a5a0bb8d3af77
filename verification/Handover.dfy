/** One account, two shares, and a name that passes from one to the other: concrete runs in which the code falls
    short. */
module Handover {
  import opened Options
  import Conditions
  import opened Convergence
  import opened Deletion
  import opened Digest
  import opened FrontendNames
  import opened Inventory
  import opened Leftovers
  import opened NoLeak
  import opened Ownership
  import opened PassedNames
  import opened ReleaseEvidence
  import opened Rename
  import opened RenameLimits
  import opened ShareFrames
  import opened Shares
  import opened ShareSteps
  import opened ShareWorld
  import opened Strings
  import opened TargetProofs
  import opened Targets
  import opened Zrok

  const UPSTREAM := "http://svc"
  const A := Id("ns", "first")
  const B := Id("ns", "second")

  function UrlOf(name: string): string {
    "https://" + name + ".shares.zrok.io"
  }

  function SpecOf(name: string): ShareSpec {
    ShareSpec("env", DefaultMode, "", UPSTREAM, Some(NameSelection("public", name)), "", false, false, [], None, None,
              DefaultPolicy)
  }

  function ListedAs(token: string, target: string, name: string): RemoteShare {
    RemoteShare(token, target, "public", "proxy", [UrlOf(name)])
  }

  function ServedBy(token: string, target: string, name: string): ShareDetail {
    ShareDetail(token, "public", "proxy", false, [UrlOf(name)], target, "active")
  }

  /** A resource bound to share `token` under `name`. */
  function Ready(id: Id, token: string, name: string): ZrokShare {
    ZrokShare(id, 1, false, true, ApplyDigest(SpecOf(name), []), "", SpecOf(name),
              ShareStatus(1, UrlOf(name), [UrlOf(name)], token, Reserved, []))
  }

  function Held(name: string): NameKey {
    NameKey("public", name)
  }

  /** Nothing fails; a share that is created gets `token` and is served under `name`. */
  function Smooth(zid: string, token: string, name: string): Plan {
    Plan(0, "", false, Env(true, zid, Token), Some([]), true, true, true, true, true, NoFault, NoFault, NoFault, true,
         true, NoFault, true, true, NoFault, true, NoFault, token, [UrlOf(name)], true, true, true, NoFault, true,
         true)
  }

  lemma UrlServes(name: string)
    requires name in ["a", "b", "c"]
    ensures ServedAs([UrlOf(name)], name) && IsLabel(name)
  {
    assert ToLower("https://") == "https://" && ToLower(".shares.zrok.io") == ".shares.zrok.io";
    assert ToLower(name) == name;
    assert ".shares.zrok.io" == ZROK_SUFFIXES[0];
    assert UrlOf(name) == "https://" + name + ".shares.zrok.io" + "";
    assert IsLabelText(name);
    NameRecovered(UrlOf(name), "https://", name, ".shares.zrok.io", "");
    NameUrlAgreement(UrlOf(name), name);
  }

  /** What a fault-free reconcile of a bound share does to the tables: all other shares stay, and what is new has
      the token that the plan provides. */
  lemma BoundSyncShares(s: St, k: Setting, name: string, p: Plan, auth: seq<string>)
    requires Bound(s, k, name) && Fits(s, p, auth) && ServedAs(p.newEndpoints, ReservedName(s.cr.spec))
    ensures var t := Reconcile(s, false, p).s;
            && (forall q :: q in s.net.remote && q.token != s.cr.status.shareToken ==> q in t.net.remote)
            && (forall q :: q in t.net.remote ==> q in s.net.remote || q.token == p.newToken)
            && (forall d :: d in t.net.agent ==> d in s.net.agent || d.token == p.newToken)
  {
    hide Reconcile, Names, TakeDown, Create, Classify, ApplyDigest, AnyMatches, ServedAs, Bound, UpstreamBarred;
    hide WantedKey, Scene;
    hide HeldByForeigner, NoLabelOn, InvalidSelection, FullInventory, AdoptableAgentShare, FaultFree, MarkShareReady;
    hide Cleared;
    hide LiveFrontendName, ReleaseTarget, HoldsJust;
    BoundMeans(s, k, name);
    BoundClassified(s, k, name);
    BoundLive(s, k, name);
    NamesHere(s, k, p, auth);
    SceneKey(s, k);
    OnePass(s, p, auth);
    PlanMeans(p, auth);
    var named := Names(s, p).s;
    var digest, cls := ApplyDigest(s.cr.spec, auth), Classify(s.cr, FullInventory(s.net));
    SameScene(s, named, k);
    var adopted := AdoptableAgentShare(named.cr, cls, digest);
    if adopted.Some? {
      MarkFrame(named, adopted.value.token, adopted.value.frontendEndpoints, digest, p);
    } else {
      NamedHeld(s, k, name, named);
      BoundTakeDown(s, named, k, name, p, auth);
      ClearedKeeps(s.cr, p.now);
      var down := TakeDown(named, cls, p).s;
      TakeDownFrame(named, cls, p);
      BoundTaken(s, k, name, named, cls, p, auth);
      CreateAddsOne(down, k, digest, p);
    }
  }

  lemma NamedHeld(s: St, k: Setting, name: string, named: St)
    requires Bound(s, k, name) && named.net.names == s.net.names[WantedKey(s.cr.spec) := true]
    ensures named.net.names.Keys == s.net.names.Keys + {WantedKey(s.cr.spec)}
    ensures WantedKey(s.cr.spec) in named.net.names && named.net.names[WantedKey(s.cr.spec)]
    ensures s.cr.status.shareToken != ""
  {
    hide ServedAs, NoLabelOn, Scene;
  }

  lemma BoundTaken(s: St, k: Setting, name: string, named: St, cls: Classified, p: Plan, auth: seq<string>)
    requires FaultFree(p, auth) && ReleaseTarget(named.cr, cls) == Some(s.cr.status.shareToken)
    requires s.cr.status.shareToken != ""
    requires named.cr == s.cr && named.net.remote == s.net.remote
    ensures TakeDown(named, cls, p).s.net.remote == WithoutRemote(s.net.remote, s.cr.status.shareToken)
  {
    hide TakeDown, ReleaseTarget;
    PlanMeans(p, auth);
    TakenDown(named, cls, s.cr.status.shareToken, p);
  }

  lemma CreateAddsOne(s: St, k: Setting, digest: string, p: Plan)
    requires Scene(s, k) && NoLabelOn(s.net.remote, k, "") && p.env.Env? && p.share == NoFault
    ensures var t := Create(s, digest, p).s;
            && (forall q :: q in s.net.remote ==> q in t.net.remote)
            && (forall q :: q in t.net.remote ==> q in s.net.remote || q.token == p.newToken)
            && (forall d :: d in t.net.agent ==> d in s.net.agent || d.token == p.newToken)
  {
    hide MarkShareReady, NoLabelOn, HandleShareConflict, RemoteByName, ModeText, DesiredBackendMode;
    NoHolder(s, k);
    var net := AddShare(s.net, s.cr.id, s.cr.spec, Public, p.newToken, p.newEndpoints);
    assert Create(s, digest, p) == MarkShareReady(s.(net := net), p.newToken, p.newEndpoints, digest, p);
    MarkFrame(s.(net := net), p.newToken, p.newEndpoints, digest, p);
  }

  // ----- the run -----

  const BEFORE := Net([ListedAs("t1", UPSTREAM, "a"), ListedAs("t2", UPSTREAM, "b")],
                      [ServedBy("t1", UPSTREAM, "a"), ServedBy("t2", UPSTREAM, "b")],
                      map[Held("a") := true, Held("b") := true], {}, map["t1" := A, "t2" := B], [])

  const START := World(map[A := Ready(A, "t1", "a"), B := Ready(B, "t2", "b")], BEFORE)

  /** The agent restarts and forgets both shares; `B` is reconciled first and gets a new share under "b"; then `B`
      takes the name "c" and `A` the name "b". */
  const MOVES :=
    [Outside(BEFORE.remote, []), Run(B, Smooth("z", "t3", "b")), Edit(B, SpecOf("c")), Edit(A, SpecOf("b"))]

  /** `B`, bound to "b", after the restart; "a" is just a name the account has. */
  const RESTARTED := St(Ready(B, "t2", "b"), BEFORE.(agent := []))
  const SETTING := Setting({"b", "c"}, "public", {Held("a")})

  lemma RestartedScene()
    ensures Scene(RESTARTED, SETTING)
  {
    hide AnyMatches, TargetsEqual, ApplyDigest, UrlOf, IsLabel, ServedAs, TokensIdentify, AgentBacked, AgentTokens;
    UrlServes("b");
    UrlServes("c");
    RestartedTables();
    assert ValidSetting(SETTING);
  }

  lemma RestartedTables()
    ensures TokensIdentify(RESTARTED.net) && AgentBacked(RESTARTED.net) && AgentTokens(RESTARTED.net)
  {
    hide UrlOf, ApplyDigest, SpecOf;
    var remote := RESTARTED.net.remote;
    assert remote[0].token == "t1" && remote[1].token == "t2" && "t1"[1] != "t2"[1];
    assert forall r :: r in remote <==> r == remote[0] || r == remote[1];
  }

  lemma RestartedShare()
    ensures RemoteByToken(BEFORE.remote, "t2") == Some(ListedAs("t2", UPSTREAM, "b"))
  {
    hide UrlOf;
    var remote := BEFORE.remote;
    assert remote[0].token == "t1" && remote[1].token == "t2";
    assert RemoteByToken(remote[1..], "t2") == Some(remote[1]);
  }

  lemma RestartedLabels()
    ensures NoLabelOn(BEFORE.remote, SETTING, "t2")
  {
    hide AnyMatches, ServedAs, UrlOf;
    UrlServes("a");
    UrlServes("b");
    UrlServes("c");
    LabelsOf([UrlOf("a")], "a", "b");
    LabelsOf([UrlOf("a")], "a", "c");
    assert forall r :: r in BEFORE.remote ==> r == BEFORE.remote[0] || r == BEFORE.remote[1];
  }

  lemma RestartedBound()
    ensures Bound(RESTARTED, SETTING, "b") && Reachable(RESTARTED)
  {
    hide AnyMatches, TargetsEqual, ApplyDigest, ServedAs, UrlOf, Scene, NoLabelOn, Reachable, RemoteByToken;
    UrlServes("b");
    RestartedScene();
    RestartedShare();
    RestartedLabels();
    assert Held("b") in RESTARTED.net.names && RESTARTED.net.names.Keys == {Held("a"), Held("b")};
    assert Bound(RESTARTED, SETTING, "b");
    RestartedReachable();
  }

  lemma RestartedReachable()
    requires Bound(RESTARTED, SETTING, "b")
    ensures Reachable(RESTARTED)
  {
    hide AnyMatches, TargetsEqual, ApplyDigest, ServedAs, UrlOf, LiveFrontendName, ReleaseTarget, Classify;
    SceneKey(RESTARTED, SETTING);
    OneUnderLabel(RESTARTED, SETTING, "b");
    BoundClassified(RESTARTED, SETTING, "b");
    BoundLive(RESTARTED, SETTING, "b");
  }

  lemma OneUnderLabel(s: St, k: Setting, name: string)
    requires Bound(s, k, name) && ReservedName(s.cr.spec) == name
    ensures OneHolder(s.net.remote, name)
  {
    hide AnyMatches, ServedAs;
  }

  lemma SmoothFits(s: St, token: string, name: string)
    requires token != "" && (forall r :: r in s.net.remote ==> r.token != token)
    requires name in ["a", "b", "c"] && ReservedName(s.cr.spec) == name
    ensures Fits(s, Smooth("z", token, name), []) && ServedAs(Smooth("z", token, name).newEndpoints, name)
  {
    hide UpstreamBarred, UrlOf, ServedAs;
    UrlServes(name);
    LabelsOf([UrlOf(name)], name, name);
  }

  /** `B` healed: bound under "b" and served there again, while the agent still lacks "t1". */
  ghost predicate Healed(t: St) {
    && Bound(t, SETTING, "b") && t.cr.spec == SpecOf("b")
    && (exists r :: r in t.net.remote && r.token == "t1")
    && (forall r :: r in t.net.remote ==> r.token in ["t1", "t2", "t3"])
    && (forall d :: d in t.net.agent ==> d.token == "t3")
    && AgentByToken(t.net.agent, t.cr.status.shareToken).Some?
    && AgentShareMatchesSpec(t.cr, AgentByToken(t.net.agent, t.cr.status.shareToken).value)
  }

  lemma BHeals()
    ensures Healed(Reconcile(RESTARTED, false, Smooth("z", "t3", "b")).s)
  {
    hide Reconcile, Bound, Reachable, Fits, ServedAs, Converged, Clean, AgentShareMatchesSpec, ApplyDigest, UrlOf;
    var p := Smooth("z", "t3", "b");
    var s := RESTARTED;
    assert s.net.remote[0].token == "t1" && s.net.remote[1].token == "t2";
    RestartedBound();
    SmoothFits(s, "t3", "b");
    BoundSync(s, SETTING, "b", p, []);
    BoundSyncShares(s, SETTING, "b", p, []);
    MainStep(s, p, []);
    var t := Reconcile(s, false, p).s;
    BoundNotClean(t);
    ConvergedServes(t, ApplyDigest(s.cr.spec, []));
    assert s.net.remote[0] in t.net.remote;
    forall r | r in t.net.remote
      ensures r.token in ["t1", "t2", "t3"]
    {
      assert r in s.net.remote ==> r == s.net.remote[0] || r == s.net.remote[1];
    }
  }

  lemma BoundNotClean(t: St)
    requires Bound(t, SETTING, "b")
    ensures !Clean(t)
  {
    hide AnyMatches, ServedAs, NoLabelOn, Scene, Coherent, NameInPlace, VanityWithinReach;
  }

  lemma ConvergedServes(t: St, digest: string)
    requires Converged(t, digest)
    ensures AgentByToken(t.net.agent, t.cr.status.shareToken).Some?
    ensures AgentShareMatchesSpec(t.cr, AgentByToken(t.net.agent, t.cr.status.shareToken).value)
  {
    hide AgentShareMatchesSpec, ShowsReady, Coherent, HeldByForeigner;
  }

  /** `A` as it is then: bound to the share the agent has lost, wanting the name under which the agent serves `B`. */
  function Taker(net: Net): St {
    St(Ready(A, "t1", "a").(spec := SpecOf("b"), generation := 2), net)
  }

  lemma TakerCoherent(t: St)
    requires Healed(t)
    ensures Coherent(Taker(t.net)) && Listed(t.net, "t1") && OneHolder(t.net.remote, "b")
  {
    hide AnyMatches, ServedAs, ApplyDigest, AgentShareMatchesSpec, UrlOf, IsLabel, NoLabelOn;
    var r :| r in t.net.remote && r.token == "t1";
    var i :| 0 <= i < |t.net.remote| && t.net.remote[i] == r;
    OneUnderLabel(t, SETTING, "b");
    SceneKey(t, SETTING);
  }

  lemma TakerDisplaced(t: St)
    requires Healed(t)
    ensures Displaced(Taker(t.net)) && !HeldByForeigner(Taker(t.net).cr, FullInventory(t.net))
  {
    hide AnyMatches, ServedAs, ApplyDigest, TargetsEqual, EqualFold, UrlOf, IsLabel;
    var d := AgentByToken(t.net.agent, t.cr.status.shareToken).value;
    assert AnyMatches(d.frontendEndpoints, "b") && IsAgentShareActive(d) && TargetsEqual(d.backendEndpoint, UPSTREAM);
    var r :| r in t.net.remote && r.token == d.token && r.target == d.backendEndpoint
             && r.frontendEndpoints == d.frontendEndpoints;
    var holder := RemoteByName(t.net.remote, "b");
    assert holder.Some? ==> holder.value == r;
  }

  lemma TakerUnderway(t: St)
    requires Healed(t)
    ensures Underway(Taker(t.net), Smooth("z", "t4", "b"), [])
  {
    hide AnyMatches, ServedAs, ApplyDigest, AgentShareMatchesSpec, Bound, Fits, Names, HeldByForeigner, Displaced;
    hide UrlOf, Listed;
    TakerCoherent(t);
    TakerDisplaced(t);
    SmoothFits(Taker(t.net), "t4", "b");
    NamesOk(Taker(t.net), Smooth("z", "t4", "b"));
  }

  lemma AfterOne(w: World, actions: seq<Action>, a: Action, run: seq<Action>)
    requires run == actions + [a]
    ensures After(w, run) == Step(After(w, actions), a)
  {
    assert run[..|run| - 1] == actions;
  }

  /** Nobody else claims "b" while `B` heals, nor when `A` has taken it over. */
  lemma NoRivals(c: ZrokShare, d: ZrokShare)
    requires c.spec == SpecOf("a") && d.spec == SpecOf("c")
    ensures !Rival(map[A := c, B := Ready(B, "t2", "b")], B)
    ensures !Rival(map[A := c.(spec := SpecOf("b"), generation := 2), B := d], A)
  {
    hide ApplyDigest, UrlOf;
  }

  /** The world just before `A` is reconciled: `Healed` outside, and each resource with its new name. */
  lemma MovesMade()
    ensures var w, t := After(START, MOVES), Reconcile(RESTARTED, false, Smooth("z", "t3", "b")).s;
            w == World(map[A := Taker(t.net).cr, B := t.cr.(spec := SpecOf("c"), generation := t.cr.generation + 1)],
                       t.net)
  {
    hide Reconcile, Rival, ApplyDigest, UrlOf;
    var t := Reconcile(RESTARTED, false, Smooth("z", "t3", "b")).s;
    ReconcileFrame(RESTARTED, false, Smooth("z", "t3", "b"));
    NoRivals(Ready(A, "t1", "a"), Ready(B, "t2", "c"));
    AfterOne(START, [], MOVES[0], [MOVES[0]]);
    AfterOne(START, [MOVES[0]], MOVES[1], [MOVES[0], MOVES[1]]);
    AfterOne(START, [MOVES[0], MOVES[1]], MOVES[2], [MOVES[0], MOVES[1], MOVES[2]]);
    AfterOne(START, [MOVES[0], MOVES[1], MOVES[2]], MOVES[3], MOVES);
    var w1 := Step(START, MOVES[0]);
    assert w1 == World(START.crs, RESTARTED.net);
    var w2 := Step(w1, MOVES[1]);
    assert w2 == World(map[A := Ready(A, "t1", "a"), B := t.cr], t.net);
    var w3 := Step(w2, MOVES[2]);
    assert w3 == World(map[A := Ready(A, "t1", "a"),
                           B := t.cr.(spec := SpecOf("c"), generation := t.cr.generation + 1)], t.net);
  }

  /** The last move: `A` is reconciled, without any fault, and from then on no resource names the share "t1", which
      is still listed. */
  lemma NamePassesOn()
    ensures var w := After(START, MOVES);
            var t := Step(w, Run(A, Smooth("z", "t4", "b")));
            && A in w.crs && w.crs[A].status.shareToken == "t1"
            && Underway(St(w.crs[A], w.net), Smooth("z", "t4", "b"), [])
            && Displaced(St(w.crs[A], w.net))
            && Listed(t.net, "t1") && forall id :: id in t.crs ==> t.crs[id].status.shareToken != "t1"
  {
    hide Reconcile, Rival, ApplyDigest, UrlOf, After, Underway, Displaced, Listed, Bound, Healed;
    var p := Smooth("z", "t4", "b");
    var healed := Reconcile(RESTARTED, false, Smooth("z", "t3", "b")).s;
    var w := After(START, MOVES);
    MovesMade();
    BHeals();
    HealedToken(healed);
    TakerUnderway(healed);
    TakerDisplaced(healed);
    var s := Taker(healed.net);
    AbandonedExactly(s, p, []);
    ReconcileFrame(s, false, p);
    NoRivals(Ready(A, "t1", "a"), healed.cr.(spec := SpecOf("c"), generation := healed.cr.generation + 1));
    var t := Step(w, Run(A, p));
    assert t.crs == w.crs[A := Reconcile(s, false, p).s.cr] && t.net == Reconcile(s, false, p).s.net;
  }

  lemma HealedToken(t: St)
    requires Healed(t)
    ensures t.cr.status.shareToken == "t3"
  {
    hide Bound, AgentShareMatchesSpec;
  }

  // ----- without an identity -----

  /** A fresh resource that wants the name "a", which the agent serves for another target. */
  const BLIND :=
    St(Ready(A, "", "a"),
       BEFORE.(remote := [ListedAs("t1", "http://other", "a")], agent := [ServedBy("t1", "http://other", "a")]))

  lemma TargetsDiffer()
    ensures !TargetsEqual("http://other", UPSTREAM)
  {
    var other := Target("http", None, "other", None, "", None, None);
    var mine := Target("http", None, "svc", None, "", None, None);
    assert Text(other) == "http://other" && Text(mine) == UPSTREAM;
    assert ToLower(other.host) == "other" && ToLower(mine.host) == "svc";
    TargetsEqualExactly(other, mine);
  }

  lemma BlindTakes()
    ensures TakesBlindly(BLIND, false, Smooth("", "t4", "a"))
  {
    hide AnyMatches, TargetsEqual, ApplyDigest, ServedAs, UrlOf, UpstreamBarred;
    TargetsDiffer();
    UrlServes("a");
    LabelsOf([UrlOf("a")], "a", "a");
    BlindNames();
    assert Admit(BLIND, false, Smooth("", "t4", "a")) == More(BLIND);
  }

  lemma BlindNames()
    ensures Names(BLIND, Smooth("", "t4", "a")).More?
  {
    hide EnsureReservedName, ApplyDigest, UrlOf;
    EnsuredOk(BLIND, Smooth("", "t4", "a"));
  }

  /** It takes that share down, though nothing speaks for it. */
  lemma ReleasedWithoutEvidence()
    ensures !AllJustified(BLIND.cr, BLIND.net.remote, Reconcile(BLIND, false, Smooth("", "t4", "a")).s.net.log,
                          |BLIND.net.log|)
  {
    hide Reconcile, AllJustified, TakesBlindly, ApplyDigest, UrlOf;
    BlindTakes();
    EvidenceWithoutIdentity(BLIND, false, Smooth("", "t4", "a"));
  }

  // ----- a dropped selection -----

  lemma DigestibleSpecs(spec: ShareSpec)
    requires spec == SpecOf("b") || spec == SpecOf("b").(nameSelection := None)
    ensures Digestible(spec, []) && '/' !in ReservedName(spec)
  {
    hide UrlOf;
  }

  /** `B`, bound to "b", drops its selection: the next reconcile takes the share down, and "b" stays reserved with
      nothing left to say so. */
  lemma DroppedNameStays()
    ensures var t := Reconcile(Reselect(RESTARTED, None), false, Smooth("z", "t3", "b")).s;
            Held("b") in t.net.names && t.cr.reclaimName == "" && !Listed(t.net, "t2")
  {
    hide Reconcile, Bound, Reachable, ApplyDigest, UrlOf, UpstreamBarred, Digestible, Listed;
    var p := Smooth("z", "t3", "b");
    RestartedBound();
    DigestibleSpecs(SpecOf("b"));
    DigestibleSpecs(SpecOf("b").(nameSelection := None));
    assert RESTARTED.net.remote[0].token == "t1" && RESTARTED.net.remote[1].token == "t2";
    assert forall r :: r in RESTARTED.net.remote ==> r == RESTARTED.net.remote[0] || r == RESTARTED.net.remote[1];
    assert Fits(Reselect(RESTARTED, None), p, []);
    DroppedSelectionKeepsName(RESTARTED, SETTING, "b", p, []);
  }

  // ----- a crash -----

  /** `B` wants the name "c" now. */
  const RENAMED := RESTARTED.(cr := RESTARTED.cr.(spec := SpecOf("c"), generation := 2))

  lemma RenamedBound()
    ensures Bound(RENAMED, SETTING, "b")
  {
    hide AnyMatches, ServedAs, ApplyDigest, UrlOf, IsLabel, NoLabelOn, Reachable, TokensIdentify, AgentBacked;
    hide AgentTokens, ValidSetting;
    RestartedBound();
  }

  /** The share is released, the annotation does not land, and the next reconcile makes the share ready under "c": "b"
      stays. */
  lemma CrashKeepsName()
    ensures var t := Reconcile(RENAMED, false, Smooth("z", "t3", "c").(recordLands := false)).s;
            var u := Reconcile(t, false, Smooth("z", "t4", "c")).s;
            Held("b") in u.net.names && Held("c") in u.net.names && u.cr.reclaimName == ""
  {
    hide Reconcile, Bound, Fits, ServedAs, ApplyDigest, UrlOf, Idle, FairPlay, PlayAll;
    var crash, next := Smooth("z", "t3", "c").(recordLands := false), Smooth("z", "t4", "c");
    RenamedBound();
    assert RENAMED.net.remote[0].token == "t1" && RENAMED.net.remote[1].token == "t2";
    assert forall r :: r in RENAMED.net.remote ==> r == RENAMED.net.remote[0] || r == RENAMED.net.remote[1];
    SmoothFits(RENAMED, "t3", "c");
    assert crash.(recordLands := true) == Smooth("z", "t3", "c");
    CrashedSync(RENAMED, SETTING, "b", crash, []);
    var t := Reconcile(RENAMED, false, crash).s;
    SmoothFits(t, "t4", "c");
    var u := Reconcile(t, false, next).s;
    NoMoves(u, Orphaned(SETTING, "b"));
    CrashLosesName(RENAMED, SETTING, "b", crash, next, [], []);
    BoundUnclaimed(u, Orphaned(SETTING, "b"), "c");
    assert Held("c") in u.net.names.Keys;
  }

  lemma NoMoves(s: St, k: Setting)
    ensures FairPlay(s, k, [], []) && PlayAll(s, k, []) == s
  {
    hide Play;
  }

  // ----- a share nobody wrote down -----

  /** A resource without a reserved name, ready to be shared. */
  const EPHEMERAL :=
    St(Ready(A, "", "a").(spec := SpecOf("a").(nameSelection := None)), Net([], [], map[], {}, map[], []))

  /** It is shared, the Ready patch fails, and its status names no share. */
  lemma CreatedButUnrecorded()
    ensures !Remembered(Reconcile(EPHEMERAL, false, Smooth("z", "t1", "a").(readyLands := false)).s.cr,
                        Reconcile(EPHEMERAL, false, Smooth("z", "t1", "a").(readyLands := false)).s.net)
  {
    hide Reconcile, ApplyDigest, UrlOf, Forgets;
    var p := Smooth("z", "t1", "a").(readyLands := false);
    EphemeralForgets();
    ForgetsExactly(Claimants(map[], map[]), EPHEMERAL, false, p);
  }

  lemma EphemeralForgets()
    ensures Forgets(EPHEMERAL, false, Smooth("z", "t1", "a").(readyLands := false))
  {
    hide ApplyDigest, UrlOf, UpstreamBarred, TargetsEqual, Conditions.Apply, AnyMatches;
    var p := Smooth("z", "t1", "a").(readyLands := false);
    assert Admit(EPHEMERAL, false, p) == More(EPHEMERAL);
    assert Names(EPHEMERAL, p) == More(EPHEMERAL);
    assert BeforeCreate(EPHEMERAL, ApplyDigest(EPHEMERAL.cr.spec, []), p) == Some(EPHEMERAL);
  }

  // ----- a claimant nobody saw -----

  /** `B` has no share and claims the name "a", which `A` holds for the same target; now `B` is being deleted. */
  const CLAIMANT :=
    St(Ready(B, "", "a").(deleting := true, status := ShareStatus(1, "", [], "", Unreserved, [])), BEFORE)

  lemma ClaimantUnbound()
    ensures UnboundClaimant(CLAIMANT, ListedAs("t1", UPSTREAM, "a"))
  {
    hide AnyMatches, ApplyDigest, UrlOf, TokensIdentify, OneHolder, AgentBacked, RemoteByName;
    ClaimantBacked();
    ClaimantTokens();
    ClaimantHolder();
  }

  lemma ClaimantTokens()
    ensures TokensIdentify(BEFORE)
  {
    hide UrlOf;
    var remote := BEFORE.remote;
    assert remote[0].token == "t1" && remote[1].token == "t2" && "t1"[1] != "t2"[1];
    assert forall r :: r in remote ==> r == remote[0] || r == remote[1];
  }

  lemma ClaimantHolder()
    ensures OneHolder(BEFORE.remote, "a") && RemoteByName(BEFORE.remote, "a") == Some(ListedAs("t1", UPSTREAM, "a"))
  {
    hide AnyMatches, ServedAs, UrlOf, IsLabel;
    UrlServes("a");
    UrlServes("b");
    LabelsOf([UrlOf("a")], "a", "a");
    LabelsOf([UrlOf("b")], "b", "a");
    assert forall r :: r in BEFORE.remote ==> r == BEFORE.remote[0] || r == BEFORE.remote[1];
  }

  lemma ClaimantBacked()
    ensures AgentBacked(BEFORE)
  {
    hide UrlOf;
    assert BEFORE.remote[0] in BEFORE.remote && BEFORE.remote[1] in BEFORE.remote;
    assert forall d :: d in BEFORE.agent ==> d == BEFORE.agent[0] || d == BEFORE.agent[1];
  }

  /** The list of resources cannot be read: `A`'s share and its name go with `B`. */
  lemma IncumbentLost()
    ensures var t := ReconcileDelete(CLAIMANT, true, Smooth("z", "t3", "a").(resourcesListed := false)).s;
            !Listed(t.net, "t1") && Held("a") !in t.net.names
  {
    hide ReconcileDelete, ApplyDigest, UrlOf, Listed, UnboundClaimant, TargetsEqual;
    var p := Smooth("z", "t3", "a").(resourcesListed := false);
    var holder := ListedAs("t1", UPSTREAM, "a");
    ClaimantUnbound();
    SameTargets(UPSTREAM);
    UnseenClaimantLosesShareExactly(CLAIMANT, holder, true, p);
    UnseenClaimantLosesNameExactly(CLAIMANT, holder, true, p);
  }
}
