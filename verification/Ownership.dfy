/** Several resources share one environment without touching each other's shares. */
module Ownership {
  import opened Options
  import opened Digest
  import opened Inventory
  import opened ReleaseEvidence
  import opened ShareFrames
  import opened Shares
  import opened ShareSteps
  import opened ShareWorld
  import opened Targets
  import opened Zrok

  /** Which resource ever claims a reserved name or a vanity token: at most one each, over the whole run. */
  datatype Claimants = Claimants(names: map<string, Id>, tokens: map<string, Id>)

  predicate SpecAllowed(k: Claimants, id: Id, spec: ShareSpec) {
    && (ReservedName(spec) != "" ==> ReservedName(spec) in k.names && k.names[ReservedName(spec)] == id)
    && (spec.privateShareToken != "" ==> spec.privateShareToken in k.tokens && k.tokens[spec.privateShareToken] == id)
  }

  /** The endpoints belong to no claimed name but those of `id`. */
  ghost predicate EndpointsOf(k: Claimants, id: Id, endpoints: seq<string>) {
    forall m :: m in k.names && AnyMatches(endpoints, m) ==> k.names[m] == id
  }

  ghost predicate OwnedBy(net: Net, token: string, id: Id) {
    token in net.owner && net.owner[token] == id
  }

  ghost predicate NetOwned(k: Claimants, net: Net) {
    && TokensIdentify(net) && AgentBacked(net)
    && (forall r, m :: r in net.remote && m in k.names && AnyMatches(r.frontendEndpoints, m)
          ==> OwnedBy(net, r.token, k.names[m]))
    && (forall r :: r in net.remote && r.token in k.tokens ==> OwnedBy(net, r.token, k.tokens[r.token]))
    && (forall t :: t in net.owner && t in k.tokens ==> net.owner[t] == k.tokens[t])
  }

  ghost predicate ResourceOwned(k: Claimants, c: ZrokShare, net: Net) {
    && SpecAllowed(k, c.id, c.spec)
    && (c.status.shareToken != "" ==> OwnedBy(net, c.status.shareToken, c.id))
  }

  ghost predicate Owned(k: Claimants, w: World) {
    && NetOwned(k, w.net)
    && forall id :: id in w.crs ==> w.crs[id].id == id && ResourceOwned(k, w.crs[id], w.net)
  }

  /** Tokens keep their owners. */
  ghost predicate OwnersKept(before: Net, after: Net) {
    forall t :: t in before.owner ==> t in after.owner && after.owner[t] == before.owner[t]
  }

  /** New tokens are fresh, URLs carry only names of the resource, and a 409 never names a share of another one. */
  ghost predicate PlanFits(k: Claimants, net: Net, c: ZrokShare, p: Plan) {
    && p.newToken != "" && p.newToken !in net.owner && p.newToken !in k.tokens
    && (forall r :: r in net.remote ==> r.token != p.newToken)
    && EndpointsOf(k, c.id, p.newEndpoints)
    && (p.reclaim.Conflict? ==> forall r :: r in net.remote ==> r.token != p.reclaim.token)
  }

  // ----- whatever a resource maps to is its own -----

  lemma RemoteIsOwn(k: Claimants, s: St, inv: Inventory, r: RemoteShare)
    requires NetOwned(k, s.net) && ResourceOwned(k, s.cr, s.net)
    requires forall q :: q in inv.remote ==> q in s.net.remote
    requires MappedRemote(s.cr, inv) == Some(r) || RemoteByName(inv.remote, ReservedName(s.cr.spec)) == Some(r)
    ensures OwnedBy(s.net, r.token, s.cr.id) && r in s.net.remote
  {}

  lemma AgentIsOwn(k: Claimants, s: St, inv: Inventory, d: ShareDetail)
    requires NetOwned(k, s.net) && ResourceOwned(k, s.cr, s.net)
    requires forall e :: e in inv.agent ==> e in s.net.agent
    requires MappedAgent(s.cr, inv) == Some(d) || AgentByName(inv.agent, ReservedName(s.cr.spec)) == Some(d)
    ensures OwnedBy(s.net, d.token, s.cr.id)
    ensures exists r :: r in s.net.remote && r.token == d.token
  {
    var r :| r in s.net.remote && r.token == d.token && r.target == d.backendEndpoint
             && r.frontendEndpoints == d.frontendEndpoints;
    assert AnyMatches(r.frontendEndpoints, ReservedName(s.cr.spec))
           <==> AnyMatches(d.frontendEndpoints, ReservedName(s.cr.spec));
  }

  lemma TargetIsOwn(k: Claimants, s: St, inv: Inventory, token: string)
    requires NetOwned(k, s.net) && ResourceOwned(k, s.cr, s.net)
    requires forall q :: q in inv.remote ==> q in s.net.remote
    requires forall e :: e in inv.agent ==> e in s.net.agent
    requires ReleaseTarget(s.cr, Classify(s.cr, inv)) == Some(token)
             || ConflictTarget(s.cr, Classify(s.cr, inv)) == Some(token)
    ensures OwnedBy(s.net, token, s.cr.id) && exists r :: r in s.net.remote && r.token == token
  {
    hide TargetsEqual, MappedRemote, MappedAgent, ResourceOwned, NetOwned;
    var cls := Classify(s.cr, inv);
    if cls.agent.Some? {
      AgentIsOwn(k, s, inv, cls.agent.value);
    }
    if cls.remote.Some? {
      RemoteIsOwn(k, s, inv, cls.remote.value);
    }
  }

  // ----- stages keep ownership -----

  ghost predicate LocallyOwned(k: Claimants, s: St) {
    NetOwned(k, s.net) && ResourceOwned(k, s.cr, s.net)
  }

  /** One stage took `s` to `t`: ownership holds again and nobody lost a token. */
  ghost predicate OwnershipKept(k: Claimants, s: St, t: St) {
    LocallyOwned(k, t) && OwnersKept(s.net, t.net) && SameResource(s.cr, t.cr)
  }

  /** Taking shares down, as long as the agent loses what the controller forgets. */
  lemma FewerShares(k: Claimants, before: Net, after: Net, token: string)
    requires NetOwned(k, before) && after.owner == before.owner
    requires after.remote == before.remote || after.remote == WithoutRemote(before.remote, token)
    requires forall d :: d in after.agent ==> d in before.agent
    requires after.remote != before.remote ==> forall d :: d in after.agent ==> d.token != token
    ensures NetOwned(k, after)
  {
    forall d | d in after.agent
      ensures exists r :: r in after.remote && r.token == d.token && r.target == d.backendEndpoint
                          && r.frontendEndpoints == d.frontendEndpoints
    {
      var r :| r in before.remote && r.token == d.token && r.target == d.backendEndpoint
               && r.frontendEndpoints == d.frontendEndpoints;
      assert r in after.remote;
    }
  }

  /** A new share of `id`, under a fresh token or its own vanity token. */
  lemma OneMoreShare(k: Claimants, net: Net, id: Id, spec: ShareSpec, mode: ShareMode, token: string,
                     endpoints: seq<string>)
    requires NetOwned(k, net) && token != "" && (forall r :: r in net.remote ==> r.token != token)
    requires token in net.owner ==> net.owner[token] == id
    requires token in k.tokens ==> k.tokens[token] == id
    requires EndpointsOf(k, id, endpoints)
    ensures NetOwned(k, AddShare(net, id, spec, mode, token, endpoints))
    ensures OwnersKept(net, AddShare(net, id, spec, mode, token, endpoints))
  {
    hide DesiredBackendMode, ModeText, AnyMatches, AgentBacked;
    var after := AddShare(net, id, spec, mode, token, endpoints);
    var r := CreatedRemote(spec, mode, token, endpoints);
    assert forall q :: q in after.remote <==> q in net.remote || q == r;
    AddedBacked(net, id, spec, mode, token, endpoints);
  }

  lemma MarkKeeps(k: Claimants, s: St, token: string, endpoints: seq<string>, digest: string, p: Plan)
    requires LocallyOwned(k, s) && OwnedBy(s.net, token, s.cr.id)
    ensures OwnershipKept(k, s, MarkShareReady(s, token, endpoints, digest, p).s)
  {
    hide MarkShareReady, NetOwned;
    MarkFrame(s, token, endpoints, digest, p);
  }

  lemma SameSharesKeeps(k: Claimants, s: St, t: St)
    requires LocallyOwned(k, s) && SameResource(s.cr, t.cr)
    requires t.net.remote == s.net.remote && t.net.agent == s.net.agent && t.net.owner == s.net.owner
    requires t.cr.status.shareToken == s.cr.status.shareToken || t.cr.status.shareToken == ""
    ensures OwnershipKept(k, s, t)
  {
    FewerShares(k, s.net, t.net, "");
  }

  lemma SurveyKeeps(k: Claimants, s: St, inv: Inventory, digest: string, p: Plan)
    requires p.env.Env? && LocallyOwned(k, s) && forall e :: e in inv.agent ==> e in s.net.agent
    ensures OwnershipKept(k, s, Survey(s, Classify(s.cr, inv), digest, p).s)
  {
    hide MarkShareReady, AgentShareMatchesSpec, ShareDigestDrifted, LocallyOwned, OwnershipKept, Conditions.Apply;
    hide MappedAgent, HeldByForeigner;
    var cls := Classify(s.cr, inv);
    var adopted := AdoptableAgentShare(s.cr, cls, digest);
    if adopted.Some? {
      AdoptedIsOwn(k, s, inv, digest);
      MarkKeeps(k, s, adopted.value.token, adopted.value.frontendEndpoints, digest, p);
    }
    var r := Survey(s, cls, digest, p);
    EndFrame(s, Conditions.Reason.InventoryError, p.errText, p, Errored);
    if r.s.net == s.net && r.s.cr.status.shareToken == s.cr.status.shareToken && SameResource(s.cr, r.s.cr) {
      SameSharesKeeps(k, s, r.s);
    }
  }

  lemma AdoptedIsOwn(k: Claimants, s: St, inv: Inventory, digest: string)
    requires LocallyOwned(k, s) && forall e :: e in inv.agent ==> e in s.net.agent
    requires AdoptableAgentShare(s.cr, Classify(s.cr, inv), digest).Some?
    ensures OwnedBy(s.net, AdoptableAgentShare(s.cr, Classify(s.cr, inv), digest).value.token, s.cr.id)
    ensures exists r ::
              r in s.net.remote && r.token == AdoptableAgentShare(s.cr, Classify(s.cr, inv), digest).value.token
  {
    hide AgentShareMatchesSpec, ShareDigestDrifted, HeldByForeigner, MappedRemote, MappedAgent;
    AgentIsOwn(k, s, inv, MappedAgent(s.cr, inv).value);
  }

  lemma NamesKeep(k: Claimants, s: St, p: Plan)
    requires LocallyOwned(k, s)
    ensures OwnershipKept(k, s, Names(s, p).s)
  {
    hide Names, LocallyOwned, OwnershipKept;
    NamesFrame(s, p);
    SameSharesKeeps(k, s, Names(s, p).s);
  }

  lemma TakeDownKeeps(k: Claimants, s: St, cls: Classified, p: Plan)
    requires p.env.Env? && LocallyOwned(k, s)
    ensures OwnershipKept(k, s, TakeDown(s, cls, p).s)
  {
    hide TakeDown, ReleaseTarget, NetOwned;
    TakeDownFrame(s, cls, p);
    var target := ReleaseTarget(s.cr, cls);
    FewerShares(k, s.net, TakeDown(s, cls, p).s.net, if target.Some? then target.value else "");
  }

  lemma ConflictKeeps(k: Claimants, s: St, digest: string, p: Plan)
    requires p.env.Env? && LocallyOwned(k, s)
    ensures OwnershipKept(k, s, HandleShareConflict(s, digest, p).s)
  {
    hide HandleShareConflict, ConflictTarget, Classify, NetOwned;
    ConflictFrame(s, digest, p);
    var r, view := HandleShareConflict(s, digest, p), ConflictView(s, p);
    var target := ConflictTarget(s.cr, view);
    FewerShares(k, s.net, r.s.net, if target.Some? then target.value else "");
    if r.s.cr.status.shareToken != s.cr.status.shareToken {
      ViewIsOwn(k, s, p);
    }
  }

  lemma ViewIsOwn(k: Claimants, s: St, p: Plan)
    requires p.env.Env? && LocallyOwned(k, s) && ConflictView(s, p).agent.Some?
    ensures OwnedBy(s.net, ConflictView(s, p).agent.value.token, s.cr.id)
    ensures exists r :: r in s.net.remote && r.token == ConflictView(s, p).agent.value.token
  {
    hide HeldByForeigner, MappedRemote, MappedAgent;
    var inv := LoadInventory(s.net, p.env.zid, p.remoteListedAgain, p.agentAnswersAgain);
    AgentIsOwn(k, s, inv, MappedAgent(s.cr, inv).value);
  }

  lemma CreateKeeps(k: Claimants, s: St, digest: string, p: Plan)
    requires p.env.Env? && LocallyOwned(k, s) && PlanFits(k, s.net, s.cr, p)
    ensures OwnershipKept(k, s, Create(s, digest, p).s)
  {
    hide HandleShareConflict, MarkShareReady, Conditions.Apply, NetOwned, AddShare, EndpointsOf;
    var spec, id := s.cr.spec, s.cr.id;
    if DesiredShareMode(spec) == ShareMode.Private {
      var shared := SharePrivate(s.net, id, spec, p.share, p.newToken);
      if shared.reply == Ok {
        PrivateCreated(k, s, p);
        MarkKeeps(k, s.(net := shared.net), VanityOr(spec, p.newToken), [], digest, p);
      } else {
        SameSharesKeeps(k, s, Create(s, digest, p).s);
      }
    } else {
      var shared := SharePublic(s.net, id, spec, p.share, p.newToken, p.newEndpoints);
      if shared.reply == Ok {
        OneMoreShare(k, s.net, id, spec, Public, p.newToken, p.newEndpoints);
        NewOwner(s.net, id, spec, Public, p.newToken, p.newEndpoints);
        MarkKeeps(k, s.(net := shared.net), p.newToken, p.newEndpoints, digest, p);
      } else if shared.reply.Attached? && ReservedName(spec) != "" {
        ConflictKeeps(k, s, digest, p);
      } else {
        SameSharesKeeps(k, s, Create(s, digest, p).s);
      }
    }
  }

  lemma NewOwner(net: Net, id: Id, spec: ShareSpec, mode: ShareMode, token: string, endpoints: seq<string>)
    ensures OwnedBy(AddShare(net, id, spec, mode, token, endpoints), token, id)
  {}

  lemma PrivateCreated(k: Claimants, s: St, p: Plan)
    requires LocallyOwned(k, s) && PlanFits(k, s.net, s.cr, p)
    requires SharePrivate(s.net, s.cr.id, s.cr.spec, p.share, p.newToken).reply == Ok
    ensures var net, token :=
              SharePrivate(s.net, s.cr.id, s.cr.spec, p.share, p.newToken).net, VanityOr(s.cr.spec, p.newToken);
            NetOwned(k, net) && OwnersKept(s.net, net) && OwnedBy(net, token, s.cr.id)
  {
    hide AddShare;
    var token := VanityOr(s.cr.spec, p.newToken);
    assert AnyMatches([], "") == false;
    assert EndpointsOf(k, s.cr.id, []);
    OneMoreShare(k, s.net, s.cr.id, s.cr.spec, ShareMode.Private, token, []);
    NewOwner(s.net, s.cr.id, s.cr.spec, ShareMode.Private, token, []);
  }

  lemma KeptOnward(k: Claimants, s: St, t: St, u: St)
    requires OwnershipKept(k, s, t) && OwnershipKept(k, t, u)
    ensures OwnershipKept(k, s, u)
  {
    hide LocallyOwned;
  }

  lemma PlanStillFits(k: Claimants, s: St, t: St, p: Plan)
    requires PlanFits(k, s.net, s.cr, p) && s.cr.id == t.cr.id && t.net.owner == s.net.owner
    requires forall r :: r in t.net.remote ==> r in s.net.remote
    ensures PlanFits(k, t.net, t.cr, p)
  {
    hide EndpointsOf;
  }

  lemma ConvergeKeeps(k: Claimants, s: St, digest: string, p: Plan)
    requires p.env.Env? && LocallyOwned(k, s) && PlanFits(k, s.net, s.cr, p)
    ensures OwnershipKept(k, s, Converge(s, digest, p).s)
  {
    hide Survey, Names, TakeDown, Create, MarkShareReady, Classify, AdoptableAgentShare, LocallyOwned, ReleaseTarget;
    hide PlanFits;
    var inv := LoadInventory(s.net, p.env.zid, p.remoteListed, p.agentAnswers);
    var cls := Classify(s.cr, inv);
    SurveyKeeps(k, s, inv, digest, p);
    if Survey(s, cls, digest, p).More? {
      NamesKeep(k, s, p);
      NamesFrame(s, p);
      var named := Names(s, p);
      if named.More? {
        var adopted := AdoptableAgentShare(named.s.cr, cls, digest);
        if adopted.Some? {
          AdoptLaterIsOwn(k, s, named.s, inv, digest);
          MarkKeeps(k, named.s, adopted.value.token, adopted.value.frontendEndpoints, digest, p);
          KeptOnward(k, s, named.s,
                     MarkShareReady(named.s, adopted.value.token, adopted.value.frontendEndpoints, digest, p).s);
        } else {
          TakeDownKeeps(k, named.s, cls, p);
          TakeDownFrame(named.s, cls, p);
          var down := TakeDown(named.s, cls, p);
          KeptOnward(k, s, named.s, down.s);
          if down.More? {
            PlanStillFits(k, s, down.s, p);
            CreateKeeps(k, down.s, digest, p);
            KeptOnward(k, s, down.s, Create(down.s, digest, p).s);
          }
        }
      }
    }
  }

  /** Adoption after the name stage still concerns the agent share seen before it. */
  lemma AdoptLaterIsOwn(k: Claimants, s: St, t: St, inv: Inventory, digest: string)
    requires LocallyOwned(k, s) && OwnershipKept(k, s, t)
    requires forall e :: e in inv.agent ==> e in s.net.agent
    requires AdoptableAgentShare(t.cr, Classify(s.cr, inv), digest).Some?
    ensures OwnedBy(t.net, AdoptableAgentShare(t.cr, Classify(s.cr, inv), digest).value.token, t.cr.id)
    ensures exists r ::
              r in s.net.remote && r.token == AdoptableAgentShare(t.cr, Classify(s.cr, inv), digest).value.token
  {
    hide AgentShareMatchesSpec, ShareDigestDrifted, HeldByForeigner, MappedRemote, MappedAgent, LocallyOwned;
    AgentIsOwnHere(k, s, inv);
  }

  lemma AgentIsOwnHere(k: Claimants, s: St, inv: Inventory)
    requires LocallyOwned(k, s) && (forall e :: e in inv.agent ==> e in s.net.agent) && MappedAgent(s.cr, inv).Some?
    ensures OwnedBy(s.net, MappedAgent(s.cr, inv).value.token, s.cr.id)
    ensures exists r :: r in s.net.remote && r.token == MappedAgent(s.cr, inv).value.token
  {
    hide MappedAgent;
    AgentIsOwn(k, s, inv, MappedAgent(s.cr, inv).value);
  }

  lemma ReconcileKeeps(k: Claimants, s: St, rival: bool, p: Plan)
    requires LocallyOwned(k, s) && PlanFits(k, s.net, s.cr, p)
    ensures OwnershipKept(k, s, Reconcile(s, rival, p).s)
  {
    hide Admit, Converge, ApplyDigest, LocallyOwned, PlanFits;
    AdmitFrame(s, rival, p);
    var admitted := Admit(s, rival, p);
    if admitted.More? {
      ConvergeKeeps(k, s, ApplyDigest(s.cr.spec, p.basicAuth.value), p);
    } else {
      SameSharesKeeps(k, s, admitted.s);
    }
  }

  // ----- deletion keeps ownership -----

  lemma DeletionTokenIsOwn(k: Claimants, s: St, claimed: bool, inv: Inventory)
    requires LocallyOwned(k, s)
    requires forall q :: q in inv.remote ==> q in s.net.remote
    requires forall e :: e in inv.agent ==> e in s.net.agent
    ensures var token := DeletionToken(s.cr, claimed, inv); token != "" ==> OwnedBy(s.net, token, s.cr.id)
    ensures var token := DeletionToken(s.cr, claimed, inv);
            token != "" && token != s.cr.status.shareToken ==> exists r :: r in s.net.remote && r.token == token
  {
    hide TargetsEqual, LocallyOwned, OwnedBy, IsAgentShareActive, AnyMatches;
    StatusIsOwn(k, s);
    var byAgent := AgentByName(inv.agent, ReservedName(s.cr.spec));
    var byName := RemoteByName(inv.remote, ReservedName(s.cr.spec));
    if byAgent.Some? {
      LocalAgentByName(k, s, inv);
    }
    if byName.Some? {
      LocalRemoteByName(k, s, inv);
    }
  }

  lemma StatusIsOwn(k: Claimants, s: St)
    requires LocallyOwned(k, s)
    ensures s.cr.status.shareToken != "" ==> OwnedBy(s.net, s.cr.status.shareToken, s.cr.id)
  {}

  lemma LocalAgentByName(k: Claimants, s: St, inv: Inventory)
    requires LocallyOwned(k, s) && forall e :: e in inv.agent ==> e in s.net.agent
    requires AgentByName(inv.agent, ReservedName(s.cr.spec)).Some?
    ensures OwnedBy(s.net, AgentByName(inv.agent, ReservedName(s.cr.spec)).value.token, s.cr.id)
    ensures exists r :: r in s.net.remote && r.token == AgentByName(inv.agent, ReservedName(s.cr.spec)).value.token
  {
    AgentIsOwn(k, s, inv, AgentByName(inv.agent, ReservedName(s.cr.spec)).value);
  }

  lemma LocalRemoteByName(k: Claimants, s: St, inv: Inventory)
    requires LocallyOwned(k, s) && forall q :: q in inv.remote ==> q in s.net.remote
    requires RemoteByName(inv.remote, ReservedName(s.cr.spec)).Some?
    ensures OwnedBy(s.net, RemoteByName(inv.remote, ReservedName(s.cr.spec)).value.token, s.cr.id)
    ensures RemoteByName(inv.remote, ReservedName(s.cr.spec)).value in s.net.remote
  {
    RemoteIsOwn(k, s, inv, RemoteByName(inv.remote, ReservedName(s.cr.spec)).value);
  }

  lemma TookDownKeeps(k: Claimants, s: St, t: St, token: string)
    requires LocallyOwned(k, s) && SameResource(s.cr, t.cr)
    requires t.net == s.net || TookDown(s.net, t.net, token)
    requires t.cr.status.shareToken == s.cr.status.shareToken || t.cr.status.shareToken == ""
    ensures OwnershipKept(k, s, t)
  {
    hide NetOwned;
    FewerShares(k, s.net, t.net, token);
  }

  lemma DeleteShareKeeps(k: Claimants, s: St, token: string, inv: Inventory, p: Plan)
    requires LocallyOwned(k, s)
    ensures OwnershipKept(k, s, DeleteShare(s, token, inv, p).s)
  {
    hide LocallyOwned, DeleteShare, IsOurShareToken, OwnershipKept, TookDown;
    DeleteShareFrame(s, token, inv, p);
    TookDownKeeps(k, s, DeleteShare(s, token, inv, p).s, token);
  }

  lemma DeleteNameKeeps(k: Claimants, s: St, claimed: bool, inv: Inventory, p: Plan)
    requires LocallyOwned(k, s)
    ensures OwnershipKept(k, s, DeleteName(s, claimed, inv, p).s)
  {
    hide NetOwned, DeleteName, IsOurShareToken, AttachedHolder;
    DeleteNameFrame(s, claimed, inv, p);
    var holder := AttachedHolder(s, p);
    FewerShares(k, s.net, DeleteName(s, claimed, inv, p).s.net, if holder.Some? then holder.value else "");
  }

  lemma DropFinalizerKeeps(k: Claimants, s: St, p: Plan)
    requires LocallyOwned(k, s)
    ensures OwnershipKept(k, s, DropFinalizer(s, p).s)
  {}

  lemma DeleteKeeps(k: Claimants, s: St, rival: bool, p: Plan)
    requires LocallyOwned(k, s)
    ensures OwnershipKept(k, s, ReconcileDelete(s, rival, p).s)
  {
    hide LocallyOwned, OwnershipKept, DeleteShare, DeleteName, DropFinalizer, DeletionToken;
    var inv := DeletionInventory(s, p);
    var claimed := ReservedName(s.cr.spec) != "" && p.resourcesListed && rival;
    var token := DeletionToken(s.cr, claimed, inv);
    SameSharesKeeps(k, s, s);
    DeleteShareKeeps(k, s, token, inv, p);
    var unshared := DeleteShare(s, token, inv, p);
    KeptMeansOwned(k, s, unshared.s);
    DeleteNameKeeps(k, unshared.s, claimed, inv, p);
    var unnamed := DeleteName(unshared.s, claimed, inv, p);
    KeptOnward(k, s, unshared.s, unnamed.s);
    KeptMeansOwned(k, s, unnamed.s);
    DropFinalizerKeeps(k, unnamed.s, p);
    KeptOnward(k, s, unnamed.s, DropFinalizer(unnamed.s, p).s);
  }

  lemma KeptMeansOwned(k: Claimants, s: St, t: St)
    requires OwnershipKept(k, s, t)
    ensures LocallyOwned(k, t)
  {}

  // ----- whole runs -----

  /** What the environment of a run may do: new outside shares carry no claimed name and no token of ours. */
  ghost predicate Legit(k: Claimants, w: World, a: Action) {
    match a
    case Run(id, p) => id in w.crs ==> PlanFits(k, w.net, w.crs[id], p)
    case Submit(id, spec) => SpecAllowed(k, id, spec)
    case Edit(id, spec) => SpecAllowed(k, id, spec)
    case Remove(id) => true
    case Outside(remote, agent) =>
      var net := w.net.(remote := remote, agent := agent);
      && TokensIdentify(net) && AgentBacked(net)
      && forall r :: r in remote && r !in w.net.remote ==>
           r.token !in w.net.owner && r.token !in k.tokens
           && forall m :: m in k.names ==> !AnyMatches(r.frontendEndpoints, m)
  }

  ghost predicate LegitRun(k: Claimants, w: World, actions: seq<Action>) {
    actions == [] || (LegitRun(k, w, actions[..|actions| - 1])
                      && Legit(k, After(w, actions[..|actions| - 1]), actions[|actions| - 1]))
  }

  lemma OutsideKeeps(k: Claimants, w: World, remote: seq<RemoteShare>, agent: seq<ShareDetail>)
    requires Owned(k, w) && Legit(k, w, Outside(remote, agent))
    ensures Owned(k, Step(w, Outside(remote, agent)))
  {}

  lemma RunKeeps(k: Claimants, w: World, id: Id, p: Plan)
    requires Owned(k, w) && id in w.crs && PlanFits(k, w.net, w.crs[id], p)
    ensures Owned(k, Step(w, Run(id, p)))
  {
    hide NetOwned, PlanFits, SpecAllowed, Reconcile, ReconcileDelete, Rival;
    var s := St(w.crs[id], w.net);
    if w.crs[id].deleting {
      DeleteKeeps(k, s, Rival(w.crs, id), p);
    } else {
      ReconcileKeeps(k, s, Rival(w.crs, id), p);
    }
  }

  lemma StepKeeps(k: Claimants, w: World, a: Action)
    requires Owned(k, w) && Legit(k, w, a)
    ensures Owned(k, Step(w, a))
  {
    hide RunOne, PlanFits;
    match a
    case Run(id, p) => if id in w.crs { RunKeeps(k, w, id, p); }
    case Outside(remote, agent) => OutsideKeeps(k, w, remote, agent);
    case Submit(id, spec) =>
    case Edit(id, spec) =>
    case Remove(id) =>
  }

  /** A cluster without resources, in an account where nobody serves a claimed name. */
  ghost predicate Fresh(k: Claimants, w: World) {
    && w.crs == map[] && w.net.owner == map[] && TokensIdentify(w.net) && AgentBacked(w.net)
    && forall r :: r in w.net.remote ==>
         r.token !in k.tokens && forall m :: m in k.names ==> !AnyMatches(r.frontendEndpoints, m)
  }

  /** Ownership holds throughout any run, whatever calls fail. */
  lemma {:induction false} OwnedThroughout(k: Claimants, w: World, actions: seq<Action>)
    requires Fresh(k, w) && LegitRun(k, w, actions)
    ensures Owned(k, After(w, actions))
  {
    hide Step, Legit;
    if actions != [] {
      OwnedThroughout(k, w, actions[..|actions| - 1]);
      StepKeeps(k, After(w, actions[..|actions| - 1]), actions[|actions| - 1]);
    }
  }

  /** Distinct resources never hold the same share in status. */
  lemma TokensDisjoint(k: Claimants, w: World, actions: seq<Action>, id: Id, other: Id)
    requires Fresh(k, w) && LegitRun(k, w, actions)
    requires id in After(w, actions).crs && other in After(w, actions).crs && id != other
    requires After(w, actions).crs[id].status.shareToken != ""
    ensures After(w, actions).crs[id].status.shareToken != After(w, actions).crs[other].status.shareToken
  {
    hide After, LegitRun, Fresh;
    OwnedThroughout(k, w, actions);
  }
}
