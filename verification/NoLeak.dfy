/** No live share is forgotten: what a resource created and is still listed is the share in its status. */
module NoLeak {
  import opened Options
  import opened Digest
  import opened Inventory
  import opened Ownership
  import opened ReleaseEvidence
  import opened ShareFrames
  import opened Shares
  import opened ShareSteps
  import opened ShareWorld
  import opened Targets
  import opened Zrok

  /** Every listed share created for `c` is the one in its status. */
  ghost predicate Remembered(c: ZrokShare, net: Net) {
    forall r :: r in net.remote && OwnedBy(net, r.token, c.id) ==> r.token == c.status.shareToken
  }

  ghost predicate NoneLive(c: ZrokShare, net: Net) {
    forall r :: r in net.remote ==> !OwnedBy(net, r.token, c.id)
  }

  /** The whole claim: listed shares of resources are accounted for, and a resource that has no finalizer has none. */
  ghost predicate NothingLeaked(w: World) {
    && (forall r :: r in w.net.remote && r.token in w.net.owner ==> w.net.owner[r.token] in w.crs)
    && (forall id :: id in w.crs ==>
          Remembered(w.crs[id], w.net) && (!w.crs[id].finalizer ==> w.crs[id].status.shareToken == ""))
  }

  /** The environment keeps its identity, the Ready status patch lands, and deletion is authorized.
      Lists, agent calls, releases, unshares and all other writes may fail. */
  predicate Careful(c: ZrokShare, p: Plan) {
    && p.readyLands
    && (p.env.Env? ==> p.env.zid != "")
    && (c.deleting ==>
          p.env.EnvUnreadable? || (p.env.Env? && p.env.credential in {Token, Unreadable} && p.unshare != Denied))
  }

  lemma OwnLiveIsStatus(k: Claimants, s: St, token: string)
    requires LocallyOwned(k, s) && Remembered(s.cr, s.net)
    requires OwnedBy(s.net, token, s.cr.id) && exists r :: r in s.net.remote && r.token == token
    ensures token == s.cr.status.shareToken
  {}

  lemma ForgottenIsNone(k: Claimants, s: St)
    requires NetOwned(k, s.net) && Remembered(s.cr, s.net) && s.cr.status.shareToken == ""
    ensures NoneLive(s.cr, s.net)
  {}

  /** Fewer shares and the same token in status. */
  lemma FewerRemembered(s: St, t: St)
    requires Remembered(s.cr, s.net) && t.cr.id == s.cr.id && t.net.owner == s.net.owner
    requires forall r :: r in t.net.remote ==> r in s.net.remote
    requires t.cr.status.shareToken == s.cr.status.shareToken || NoneLive(s.cr, t.net)
    ensures Remembered(t.cr, t.net)
  {}

  lemma SurveyRemembered(k: Claimants, s: St, inv: Inventory, digest: string, p: Plan)
    requires p.env.Env? && LocallyOwned(k, s) && Remembered(s.cr, s.net)
    requires forall e :: e in inv.agent ==> e in s.net.agent
    ensures var r := Survey(s, Classify(s.cr, inv), digest, p); Remembered(r.s.cr, r.s.net)
  {
    hide MarkShareReady, AgentShareMatchesSpec, ShareDigestDrifted, LocallyOwned, Conditions.Apply, MappedAgent;
    hide HeldByForeigner;
    hide Remembered, OwnedBy, NotReady, NameNotReady, MappedRemote;
    var cls := Classify(s.cr, inv);
    var adopted := AdoptableAgentShare(s.cr, cls, digest);
    if adopted.Some? {
      AdoptedIsOwn(k, s, inv, digest);
      OwnLiveIsStatus(k, s, adopted.value.token);
      MarkSame(s, adopted.value.token, adopted.value.frontendEndpoints, digest, p);
    }
    EndFrame(s, Conditions.Reason.InventoryError, p.errText, p, Errored);
    EndedRemembered(s, EndNotReady(s, Conditions.Reason.InventoryError, p.errText, p, Errored).s);
    EndedRemembered(s, EndNameConflict(s, p).s);
  }

  lemma MarkSame(s: St, token: string, endpoints: seq<string>, digest: string, p: Plan)
    requires Remembered(s.cr, s.net) && token == s.cr.status.shareToken
    ensures var r := MarkShareReady(s, token, endpoints, digest, p); Remembered(r.s.cr, r.s.net)
  {
    hide MarkShareReady;
    MarkFrame(s, token, endpoints, digest, p);
  }

  lemma EndedRemembered(s: St, t: St)
    requires Remembered(s.cr, s.net) && t.net == s.net && SameResource(s.cr, t.cr) && SameBinding(s.cr, t.cr)
    ensures Remembered(t.cr, t.net)
  {}

  lemma NamesRemembered(s: St, p: Plan)
    requires Remembered(s.cr, s.net)
    ensures var r := Names(s, p); Remembered(r.s.cr, r.s.net)
  {
    hide Names;
    NamesFrame(s, p);
    FewerRemembered(s, Names(s, p).s);
  }

  /** When nothing is to be taken down, nothing of the resource's own is listed; otherwise that very share is. */
  lemma TargetCoversOwn(k: Claimants, s: St, p: Plan)
    requires LocallyOwned(k, s) && Remembered(s.cr, s.net) && p.env.Env? && p.env.zid != "" && p.remoteListed
    ensures var cls := Classify(s.cr, LoadInventory(s.net, p.env.zid, p.remoteListed, p.agentAnswers));
            var target := ReleaseTarget(s.cr, cls);
            !cls.foreignName ==>
              if target.None? then NoneLive(s.cr, s.net)
              else OwnedBy(s.net, target.value, s.cr.id)
                   && (exists r :: r in s.net.remote && r.token == target.value)
                   && target.value == s.cr.status.shareToken
  {
    hide TargetsEqual, LocallyOwned, NetOwned, Remembered, OwnedBy, RemoteByName;
    var inv := LoadInventory(s.net, p.env.zid, p.remoteListed, p.agentAnswers);
    var cls := Classify(s.cr, inv);
    var target := ReleaseTarget(s.cr, cls);
    if !cls.foreignName && target.Some? {
      ExactTargetOwn(k, s, inv, target.value);
      OwnLiveIsStatus(k, s, target.value);
    }
    if !cls.foreignName && target.None? {
      assert RemoteByToken(inv.remote, s.cr.status.shareToken).None?;
      StatusNotListed(k, s);
    }
  }

  lemma ExactTargetOwn(k: Claimants, s: St, inv: Inventory, token: string)
    requires LocallyOwned(k, s) && ReleaseTarget(s.cr, Classify(s.cr, inv)) == Some(token)
    requires forall q :: q in inv.remote ==> q in s.net.remote
    requires forall e :: e in inv.agent ==> e in s.net.agent
    ensures OwnedBy(s.net, token, s.cr.id) && exists r :: r in s.net.remote && r.token == token
  {
    hide Classify, ReleaseTarget;
    TargetIsOwn(k, s, inv, token);
  }

  lemma StatusNotListed(k: Claimants, s: St)
    requires LocallyOwned(k, s) && Remembered(s.cr, s.net) && RemoteByToken(s.net.remote, s.cr.status.shareToken).None?
    ensures NoneLive(s.cr, s.net)
  {}

  lemma GoneIsNone(k: Claimants, s: St, t: St, token: string)
    requires LocallyOwned(k, s) && Remembered(s.cr, s.net) && token == s.cr.status.shareToken
    requires t.net.owner == s.net.owner && t.net.remote == WithoutRemote(s.net.remote, token)
    ensures NoneLive(s.cr, t.net)
  {}

  lemma TakeDownRemembered(k: Claimants, s: St, cls: Classified, p: Plan)
    requires LocallyOwned(k, s) && Remembered(s.cr, s.net) && p.env.Env? && p.env.zid != ""
    requires var target := ReleaseTarget(s.cr, cls);
             if target.None? then NoneLive(s.cr, s.net)
                else target.value == s.cr.status.shareToken && target.value != ""
    ensures var r := TakeDown(s, cls, p);
            Remembered(r.s.cr, r.s.net) && (r.More? ==> NoneLive(r.s.cr, r.s.net))
  {
    hide TakeDown, ReleaseTarget, LocallyOwned, Remembered, NoneLive, OwnedBy;
    TakeDownFrame(s, cls, p);
    var r, target := TakeDown(s, cls, p), ReleaseTarget(s.cr, cls);
    if target.Some? {
      if r.s.net.remote == WithoutRemote(s.net.remote, target.value) {
        GoneIsNone(k, s, r.s, target.value);
        NoneLiveSame(s.cr, r.s.cr, r.s.net);
      }
      FewerRemembered(s, r.s);
    }
  }

  lemma NoneLiveSame(c: ZrokShare, d: ZrokShare, net: Net)
    requires NoneLive(c, net) && c.id == d.id
    ensures NoneLive(d, net)
  {}

  lemma ConflictRemembered(k: Claimants, s: St, digest: string, p: Plan)
    requires p.env.Env? && LocallyOwned(k, s) && NoneLive(s.cr, s.net)
    ensures var r := HandleShareConflict(s, digest, p); Remembered(r.s.cr, r.s.net)
  {
    hide HandleShareConflict, ConflictTarget, Classify;
    ConflictFrame(s, digest, p);
  }

  lemma AddedRemembered(k: Claimants, s: St, net: Net, token: string, mode: ShareMode, endpoints: seq<string>,
                        digest: string, p: Plan)
    requires NoneLive(s.cr, s.net) && net == AddShare(s.net, s.cr.id, s.cr.spec, mode, token, endpoints)
    ensures var r := MarkShareReady(s.(net := net), token, endpoints, digest, p);
            Remembered(r.s.cr, r.s.net) <==> p.readyLands || token == s.cr.status.shareToken
  {
    hide MarkShareReady, ModeText, DesiredBackendMode;
    MarkFrame(s.(net := net), token, endpoints, digest, p);
    var r := CreatedRemote(s.cr.spec, mode, token, endpoints);
    assert r in net.remote && OwnedBy(net, r.token, s.cr.id);
  }

  /** The agent is asked for the share and starts it. */
  predicate CallGoesThrough(s: St, p: Plan) {
    if DesiredShareMode(s.cr.spec) == ShareMode.Private
    then SharePrivate(s.net, s.cr.id, s.cr.spec, p.share, p.newToken).reply == Ok
    else SharePublic(s.net, s.cr.id, s.cr.spec, p.share, p.newToken, p.newEndpoints).reply == Ok
  }

  function CreatedToken(spec: ShareSpec, p: Plan): string {
    if DesiredShareMode(spec) == ShareMode.Private then VanityOr(spec, p.newToken) else p.newToken
  }

  /** A share is created, the Ready patch fails, and status does not happen to name the new share already, as it can
      when the vanity token is used again. */
  predicate Unrecorded(s: St, p: Plan) {
    !p.readyLands && CallGoesThrough(s, p) && CreatedToken(s.cr.spec, p) != s.cr.status.shareToken
  }

  lemma CreateRemembered(k: Claimants, s: St, digest: string, p: Plan)
    requires p.env.Env? && LocallyOwned(k, s) && NoneLive(s.cr, s.net)
    ensures var r := Create(s, digest, p); Remembered(r.s.cr, r.s.net) <==> !Unrecorded(s, p)
  {
    hide HandleShareConflict, Conditions.Apply, LocallyOwned, AddShare, NoneLive, Remembered, Marked, RemoteByName;
    hide RemoteByToken;
    NoneIsRemembered(s.cr, s.net);
    EndFrame(s, Conditions.Reason.ShareError, p.errText, p, Errored);
    EndedRemembered(s, EndNotReady(s, Conditions.Reason.ShareError, p.errText, p, Errored).s);
    if CallGoesThrough(s, p) {
      var private := DesiredShareMode(s.cr.spec) == ShareMode.Private;
      var token, mode := CreatedToken(s.cr.spec, p), if private then ShareMode.Private else Public;
      AddedRemembered(k, s, AddShare(s.net, s.cr.id, s.cr.spec, mode, token, if private then [] else p.newEndpoints),
                      token, mode,
                      if private then [] else p.newEndpoints, digest, p);
    } else if DesiredShareMode(s.cr.spec) != ShareMode.Private {
      ConflictRemembered(k, s, digest, p);
    }
  }

  lemma NoneIsRemembered(c: ZrokShare, net: Net)
    requires NoneLive(c, net)
    ensures Remembered(c, net)
  {}

  /** The state in which a pass from the inventory on comes to creating a share, if it does. */
  function BeforeCreate(s: St, digest: string, p: Plan): Option<St>
    requires p.env.Env?
  {
    var cls := Classify(s.cr, LoadInventory(s.net, p.env.zid, p.remoteListed, p.agentAnswers));
    if Survey(s, cls, digest, p).Done? then None
    else
      var named := Names(s, p);
      if named.Done? || AdoptableAgentShare(named.s.cr, cls, digest).Some? then None
      else if TakeDown(named.s, cls, p).Done? then None
      else Some(TakeDown(named.s, cls, p).s)
  }

  lemma ConvergeRemembered(k: Claimants, s: St, digest: string, p: Plan)
    requires p.env.Env? && p.env.zid != "" && LocallyOwned(k, s) && Remembered(s.cr, s.net)
    ensures var r, u := Converge(s, digest, p), BeforeCreate(s, digest, p);
            Remembered(r.s.cr, r.s.net) <==> !(u.Some? && Unrecorded(u.value, p))
  {
    hide Survey, Names, TakeDown, Create, MarkShareReady, Classify, AdoptableAgentShare, LocallyOwned, ReleaseTarget;
    hide Remembered, NoneLive, OwnedBy, Unrecorded;
    var inv := LoadInventory(s.net, p.env.zid, p.remoteListed, p.agentAnswers);
    var cls := Classify(s.cr, inv);
    SurveyRemembered(k, s, inv, digest, p);
    SurveyFrame(s, cls, digest, p);
    if Survey(s, cls, digest, p).More? {
      NamesRemembered(s, p);
      NamesFrame(s, p);
      NamesKeep(k, s, p);
      var named := Names(s, p);
      KeptMeansOwned(k, s, named.s);
      if named.More? {
        var adopted := AdoptableAgentShare(named.s.cr, cls, digest);
        if adopted.Some? {
          AdoptLaterIsOwn(k, s, named.s, inv, digest);
          OwnLiveIsStatus(k, named.s, adopted.value.token);
          MarkSame(named.s, adopted.value.token, adopted.value.frontendEndpoints, digest, p);
        } else {
          TargetCoversOwn(k, s, p);
          SameTarget(s.cr, named.s.cr, cls);
          TargetIsNamed(k, s, named.s, ReleaseTarget(s.cr, cls));
          TakeDownRemembered(k, named.s, cls, p);
          TakeDownKeeps(k, named.s, cls, p);
          var down := TakeDown(named.s, cls, p);
          KeptMeansOwned(k, named.s, down.s);
          if down.More? {
            CreateRemembered(k, down.s, digest, p);
          }
        }
      }
    }
  }

  lemma TargetIsNamed(k: Claimants, s: St, t: St, target: Option<string>)
    requires LocallyOwned(k, s) && t.cr.id == s.cr.id && t.net.remote == s.net.remote && t.net.owner == s.net.owner
    requires t.cr.status.shareToken == s.cr.status.shareToken
    requires if target.None? then NoneLive(s.cr, s.net)
             else (exists r :: r in s.net.remote && r.token == target.value) && target.value == s.cr.status.shareToken
    ensures if target.None? then NoneLive(t.cr, t.net) else target.value == t.cr.status.shareToken && target.value != ""
  {}

  lemma ReconcileRemembered(k: Claimants, s: St, rival: bool, p: Plan)
    requires LocallyOwned(k, s) && Remembered(s.cr, s.net) && Careful(s.cr, p)
    requires !s.cr.finalizer ==> s.cr.status.shareToken == ""
    ensures var t := Reconcile(s, rival, p).s;
            Remembered(t.cr, t.net) && (!t.cr.finalizer ==> t.cr.status.shareToken == "")
  {
    hide Admit, Converge, ApplyDigest, LocallyOwned, Remembered, BeforeCreate;
    AdmitFrame(s, rival, p);
    var admitted := Admit(s, rival, p);
    if admitted.More? {
      ConvergeRemembered(k, s, ApplyDigest(s.cr.spec, p.basicAuth.value), p);
      ReconcileFrame(s, rival, p);
    } else {
      EndedRemembered(s, admitted.s);
      StartsUnbound(s, rival, p);
    }
  }

  /** The reconcile gets as far as creating a share, and the Ready patch after that fails. */
  predicate Forgets(s: St, rival: bool, p: Plan) {
    p.env.Env? && p.basicAuth.Some? && Admit(s, rival, p).More?
    && var u := BeforeCreate(s, ApplyDigest(s.cr.spec, p.basicAuth.value), p); u.Some? && Unrecorded(u.value, p)
  }

  /** That is exactly when a reconcile leaves behind a share that status does not name. */
  lemma ForgetsExactly(k: Claimants, s: St, rival: bool, p: Plan)
    requires LocallyOwned(k, s) && Remembered(s.cr, s.net) && (p.env.Env? ==> p.env.zid != "")
    ensures var t := Reconcile(s, rival, p).s; Remembered(t.cr, t.net) <==> !Forgets(s, rival, p)
  {
    hide Admit, Converge, ApplyDigest, LocallyOwned, Remembered, BeforeCreate, Unrecorded;
    AdmitFrame(s, rival, p);
    var admitted := Admit(s, rival, p);
    if admitted.More? {
      ConvergeRemembered(k, s, ApplyDigest(s.cr.spec, p.basicAuth.value), p);
    } else {
      EndedRemembered(s, admitted.s);
    }
  }

  /** So a reconcile whose Ready patch lands leaves nothing behind, whatever else fails. */
  lemma ReadyLandsForgetsNothing(k: Claimants, s: St, rival: bool, p: Plan)
    requires LocallyOwned(k, s) && Remembered(s.cr, s.net) && (p.env.Env? ==> p.env.zid != "") && p.readyLands
    ensures var t := Reconcile(s, rival, p).s; Remembered(t.cr, t.net)
  {
    hide Reconcile, LocallyOwned, Remembered, Admit, BeforeCreate;
    ForgetsExactly(k, s, rival, p);
  }

  lemma StartsUnbound(s: St, rival: bool, p: Plan)
    requires !s.cr.finalizer ==> s.cr.status.shareToken == ""
    ensures var t := Admit(s, rival, p).s; !t.cr.finalizer ==> t.cr.status.shareToken == ""
  {
    hide UpstreamBarred, Conditions.Apply;
  }

  // ----- deletion -----

  /** Once past the share, deletion has nothing of the resource's own left behind it. */
  lemma DeleteShareLeavesNone(k: Claimants, s: St, claimed: bool, p: Plan)
    requires LocallyOwned(k, s) && Remembered(s.cr, s.net)
    requires p.env.Env? && p.env.zid != "" && p.env.credential == Token && p.unshare != Denied
    ensures var inv := DeletionInventory(s, p);
            var r := DeleteShare(s, DeletionToken(s.cr, claimed, inv), inv, p);
            Remembered(r.s.cr, r.s.net) && (r.More? ==> NoneLive(r.s.cr, r.s.net))
  {
    hide LocallyOwned, Remembered, NoneLive, OwnedBy, DeleteShare, IsOurShareToken, DeletionToken;
    var inv := DeletionInventory(s, p);
    var token := DeletionToken(s.cr, claimed, inv);
    var r := DeleteShare(s, token, inv, p);
    DeletionTokenIsOwn(k, s, claimed, inv);
    DeletionTokenIsStatus(k, s, claimed, inv);
    DeleteShareFrame(s, token, inv, p);
    if token == "" {
      MustBeNone(k, s);
    } else if r.More? {
      DeleteShareDone(s, token, inv, p);
      GoneIsNone(k, s, r.s, token);
      NoneLiveSame(s.cr, r.s.cr, r.s.net);
      NoneIsRemembered(r.s.cr, r.s.net);
    } else {
      DeletionStopped(s, token, inv, p);
      FewerRemembered(s, r.s);
    }
  }

  lemma DeletionTokenIsStatus(k: Claimants, s: St, claimed: bool, inv: Inventory)
    requires LocallyOwned(k, s) && Remembered(s.cr, s.net)
    requires var token := DeletionToken(s.cr, claimed, inv);
             && (token != "" ==> OwnedBy(s.net, token, s.cr.id))
             && (token != "" && token != s.cr.status.shareToken ==> exists r :: r in s.net.remote && r.token == token)
    ensures var token := DeletionToken(s.cr, claimed, inv);
            (token == "" ==> s.cr.status.shareToken == "")
            && (token != "" ==> token == s.cr.status.shareToken && IsOurShareToken(s.cr, token, inv))
  {
    hide TargetsEqual, AgentByName, RemoteByName;
  }

  lemma MustBeNone(k: Claimants, s: St)
    requires LocallyOwned(k, s) && Remembered(s.cr, s.net) && s.cr.status.shareToken == ""
    ensures NoneLive(s.cr, s.net)
  {
    ForgottenIsNone(k, s);
  }

  lemma DeletionStopped(s: St, token: string, inv: Inventory, p: Plan)
    requires DeleteShare(s, token, inv, p).Done?
    ensures DeleteShare(s, token, inv, p).s.cr == s.cr
    ensures var t := DeleteShare(s, token, inv, p).s;
            t.net.owner == s.net.owner && forall r :: r in t.net.remote ==> r in s.net.remote
  {
    hide Conditions.Apply, IsOurShareToken;
  }

  lemma DeleteNameRemembered(s: St, claimed: bool, inv: Inventory, p: Plan)
    requires NoneLive(s.cr, s.net)
    ensures var r := DeleteName(s, claimed, inv, p); NoneLive(r.s.cr, r.s.net)
  {
    hide DeleteName, IsOurShareToken, AttachedHolder;
    DeleteNameFrame(s, claimed, inv, p);
  }

  lemma DropRemembered(s: St, p: Plan)
    requires NoneLive(s.cr, s.net)
    ensures var t := DropFinalizer(s, p).s; NoneLive(t.cr, t.net) && (t.cr.finalizer ==> t.cr == s.cr)
  {}

  lemma DeleteRemembered(k: Claimants, s: St, rival: bool, p: Plan)
    requires LocallyOwned(k, s) && Remembered(s.cr, s.net) && Careful(s.cr, p) && s.cr.deleting && s.cr.finalizer
    ensures var t := ReconcileDelete(s, rival, p).s;
            Remembered(t.cr, t.net) && (!t.cr.finalizer ==> NoneLive(t.cr, t.net))
  {
    hide LocallyOwned, Remembered, NoneLive, DeleteShare, DeleteName, DropFinalizer, DeletionToken;
    if p.env.Env? && p.env.credential == Token {
      var inv := DeletionInventory(s, p);
      var claimed := ReservedName(s.cr.spec) != "" && p.resourcesListed && rival;
      DeleteShareLeavesNone(k, s, claimed, p);
      var token := DeletionToken(s.cr, claimed, inv);
      var unshared := DeleteShare(s, token, inv, p);
      DeleteShareFrame(s, token, inv, p);
      if unshared.More? {
        DeleteNameRemembered(unshared.s, claimed, inv, p);
        DeleteNameFrame(unshared.s, claimed, inv, p);
        var unnamed := DeleteName(unshared.s, claimed, inv, p);
        NoneIsRemembered(unnamed.s.cr, unnamed.s.net);
        DropRemembered(unnamed.s, p);
        NoneIsRemembered(DropFinalizer(unnamed.s, p).s.cr, DropFinalizer(unnamed.s, p).s.net);
      }
    }
  }

  // ----- whole runs -----

  ghost predicate CarefulRun(w: World, actions: seq<Action>) {
    actions == []
    || (var before, a := After(w, actions[..|actions| - 1]), actions[|actions| - 1];
        CarefulRun(w, actions[..|actions| - 1]) && (a.Run? && a.id in before.crs ==> Careful(before.crs[a.id], a.plan)))
  }

  /** Shares of other resources stay remembered while `id` acts, and new shares belong to `id`. */
  lemma OthersRemembered(k: Claimants, s: St, t: St, other: ZrokShare)
    requires Remembered(other, s.net) && other.id != s.cr.id && OwnersKept(s.net, t.net)
    requires forall r :: r in t.net.remote ==> r in s.net.remote || OwnedBy(t.net, r.token, s.cr.id)
    requires forall r :: r in s.net.remote && r.token !in s.net.owner ==>
               r.token !in t.net.owner || OwnedBy(t.net, r.token, s.cr.id)
    ensures Remembered(other, t.net)
  {}

  /** What one reconcile adds to the world belongs to its resource. */
  ghost predicate OnlyAdds(s: St, t: St) {
    && (forall r :: r in t.net.remote ==> r in s.net.remote || OwnedBy(t.net, r.token, s.cr.id))
    && (forall tok :: tok in t.net.owner ==>
          t.net.owner[tok] == s.cr.id || (tok in s.net.owner && t.net.owner[tok] == s.net.owner[tok]))
  }

  lemma ReconcileOnlyAdds(s: St, rival: bool, p: Plan)
    ensures OnlyAdds(s, Reconcile(s, rival, p).s)
  {
    hide Admit, Converge, ApplyDigest;
    AdmitFrame(s, rival, p);
    if Admit(s, rival, p).More? {
      ConvergeOnlyAdds(s, ApplyDigest(s.cr.spec, p.basicAuth.value), p);
    }
  }

  lemma ConvergeOnlyAdds(s: St, digest: string, p: Plan)
    requires p.env.Env?
    ensures OnlyAdds(s, Converge(s, digest, p).s)
  {
    hide Survey, Names, TakeDown, Create, MarkShareReady, Classify, AdoptableAgentShare, ReleaseTarget;
    var cls := Classify(s.cr, LoadInventory(s.net, p.env.zid, p.remoteListed, p.agentAnswers));
    SurveyFrame(s, cls, digest, p);
    NamesFrame(s, p);
    var named := Names(s, p);
    var adopted := AdoptableAgentShare(named.s.cr, cls, digest);
    if adopted.Some? {
      MarkFrame(named.s, adopted.value.token, adopted.value.frontendEndpoints, digest, p);
    }
    TakeDownFrame(named.s, cls, p);
    var down := TakeDown(named.s, cls, p);
    CreateOnlyAdds(down.s, digest, p);
  }

  lemma CreateOnlyAdds(s: St, digest: string, p: Plan)
    requires p.env.Env?
    ensures OnlyAdds(s, Create(s, digest, p).s)
  {
    hide HandleShareConflict, MarkShareReady, Conditions.Apply, AddShare, ConflictTarget, ConflictView, OnlyAdds;
    var id, spec := s.cr.id, s.cr.spec;
    var shared := SharePublic(s.net, id, spec, p.share, p.newToken, p.newEndpoints);
    var private := SharePrivate(s.net, id, spec, p.share, p.newToken);
    AddsOne(s, Public, p.newToken, p.newEndpoints);
    AddsOne(s, ShareMode.Private, VanityOr(spec, p.newToken), []);
    MarkFrame(s.(net := shared.net), p.newToken, p.newEndpoints, digest, p);
    MarkFrame(s.(net := private.net), VanityOr(spec, p.newToken), [], digest, p);
    ConflictOnlyAdds(s, digest, p);
    EndFrame(s, Conditions.Reason.ShareError, p.errText, p, Errored);
    SameNetOnlyAdds(s);
    OnlyNetMatters(s, Create(s, digest, p).s);
  }

  lemma OnlyNetMatters(s: St, t: St)
    ensures forall u: St :: u.net == t.net && OnlyAdds(s, u) ==> OnlyAdds(s, t)
  {}

  lemma SameNetOnlyAdds(s: St)
    ensures OnlyAdds(s, s)
  {}

  lemma AddsOne(s: St, mode: ShareMode, token: string, endpoints: seq<string>)
    ensures OnlyAdds(s, s.(net := AddShare(s.net, s.cr.id, s.cr.spec, mode, token, endpoints)))
  {
    hide ModeText, DesiredBackendMode;
  }

  lemma ConflictOnlyAdds(s: St, digest: string, p: Plan)
    requires p.env.Env?
    ensures OnlyAdds(s, HandleShareConflict(s, digest, p).s)
  {
    hide HandleShareConflict, ConflictTarget, ConflictView;
    ConflictFrame(s, digest, p);
  }

  lemma DeleteOnlyAdds(s: St, rival: bool, p: Plan)
    ensures OnlyAdds(s, ReconcileDelete(s, rival, p).s)
  {
    hide DeleteShare, DeleteName, DropFinalizer, DeletionToken, AttachedHolder, IsOurShareToken;
    var inv := DeletionInventory(s, p);
    var claimed := ReservedName(s.cr.spec) != "" && p.resourcesListed && rival;
    var token := DeletionToken(s.cr, claimed, inv);
    DeleteShareFrame(s, token, inv, p);
    var unshared := DeleteShare(s, token, inv, p);
    DeleteNameFrame(unshared.s, claimed, inv, p);
    DropsNothing(DeleteName(unshared.s, claimed, inv, p).s, p);
  }

  lemma DropsNothing(s: St, p: Plan)
    ensures DropFinalizer(s, p).s.net == s.net
  {}

  lemma RunLeaksNothing(k: Claimants, w: World, id: Id, p: Plan)
    requires Owned(k, w) && NothingLeaked(w) && id in w.crs && PlanFits(k, w.net, w.crs[id], p) && Careful(w.crs[id], p)
    requires w.crs[id].deleting ==> w.crs[id].finalizer
    ensures NothingLeaked(Step(w, Run(id, p)))
  {
    hide Reconcile, ReconcileDelete, Rival, PlanFits, Careful, NetOwned, SpecAllowed, Remembered, OwnersKept;
    var s := St(w.crs[id], w.net);
    var t := RunOne(w, id, p).s;
    assert OwnershipKept(k, s, t) && OnlyAdds(s, t) && Remembered(t.cr, t.net)
           && (t.cr.deleting && !t.cr.finalizer ==> NoneLive(t.cr, t.net))
           && (!t.cr.deleting && !t.cr.finalizer ==> t.cr.status.shareToken == "") by {
      if s.cr.deleting {
        DeleteKeeps(k, s, Rival(w.crs, id), p);
        DeleteRemembered(k, s, Rival(w.crs, id), p);
        DeleteOnlyAdds(s, Rival(w.crs, id), p);
      } else {
        ReconcileKeeps(k, s, Rival(w.crs, id), p);
        ReconcileRemembered(k, s, Rival(w.crs, id), p);
        ReconcileOnlyAdds(s, Rival(w.crs, id), p);
      }
    }
    OthersStay(k, w, s, t);
    OwnersPresent(k, w, s, t);
    assert Step(w, Run(id, p)) == World(Put(w.crs, id, t.cr), t.net);
  }

  lemma OthersStay(k: Claimants, w: World, s: St, t: St)
    requires Owned(k, w) && NothingLeaked(w) && s.cr.id in w.crs && s == St(w.crs[s.cr.id], w.net)
    requires OwnersKept(s.net, t.net) && OnlyAdds(s, t)
    ensures forall o :: o in w.crs && o != s.cr.id ==> Remembered(w.crs[o], t.net)
  {
    forall o | o in w.crs && o != s.cr.id
      ensures Remembered(w.crs[o], t.net)
    {
      OthersRemembered(k, s, t, w.crs[o]);
    }
  }

  lemma OwnersPresent(k: Claimants, w: World, s: St, t: St)
    requires Owned(k, w) && NothingLeaked(w) && s.cr.id in w.crs && s == St(w.crs[s.cr.id], w.net)
    requires OwnersKept(s.net, t.net) && OnlyAdds(s, t) && SameResource(s.cr, t.cr)
    requires t.cr.deleting && !t.cr.finalizer ==> NoneLive(t.cr, t.net)
    ensures forall r :: r in t.net.remote && r.token in t.net.owner ==>
              t.net.owner[r.token] in Put(w.crs, s.cr.id, t.cr)
  {}

  lemma StepLeaksNothing(k: Claimants, w: World, a: Action)
    requires Owned(k, w) && NothingLeaked(w) && Legit(k, w, a)
    requires a.Run? && a.id in w.crs ==> Careful(w.crs[a.id], a.plan)
    requires forall id :: id in w.crs && w.crs[id].deleting ==> w.crs[id].finalizer
    ensures NothingLeaked(Step(w, a))
    ensures var crs := Step(w, a).crs; forall id :: id in crs && crs[id].deleting ==> crs[id].finalizer
  {
    hide RunOne, PlanFits, Careful, NetOwned, SpecAllowed;
    match a
    case Run(id, p) =>
      if id in w.crs {
        RunLeaksNothing(k, w, id, p);
      }
    case Outside(remote, agent) => OutsideLeaksNothing(k, w, remote, agent);
    case Submit(id, spec) => SubmitLeaksNothing(k, w, id, spec);
    case Edit(id, spec) =>
    case Remove(id) => RemoveLeaksNothing(k, w, id);
  }

  lemma OutsideLeaksNothing(k: Claimants, w: World, remote: seq<RemoteShare>, agent: seq<ShareDetail>)
    requires Owned(k, w) && NothingLeaked(w) && Legit(k, w, Outside(remote, agent))
    ensures NothingLeaked(Step(w, Outside(remote, agent)))
  {}

  lemma SubmitLeaksNothing(k: Claimants, w: World, id: Id, spec: ShareSpec)
    requires Owned(k, w) && NothingLeaked(w)
    ensures NothingLeaked(Step(w, Submit(id, spec)))
  {}

  lemma RemoveLeaksNothing(k: Claimants, w: World, id: Id)
    requires Owned(k, w) && NothingLeaked(w)
    ensures NothingLeaked(Step(w, Remove(id)))
  {
    if id in w.crs && !w.crs[id].finalizer {
      ForgottenIsNone(k, St(w.crs[id], w.net));
    }
  }

  lemma {:induction false} LeakInvariant(k: Claimants, w: World, actions: seq<Action>)
    requires Fresh(k, w) && LegitRun(k, w, actions) && CarefulRun(w, actions)
    ensures NothingLeaked(After(w, actions))
    ensures var crs := After(w, actions).crs; forall id :: id in crs && crs[id].deleting ==> crs[id].finalizer
  {
    hide Step, Legit, Careful;
    if actions != [] {
      var earlier := actions[..|actions| - 1];
      LeakInvariant(k, w, earlier);
      OwnedThroughout(k, w, earlier);
      StepLeaksNothing(k, After(w, earlier), actions[|actions| - 1]);
    }
  }

  /** In every run a listed share created for a resource is the one in that resource's status; once the resource is
      gone, none is left. Lists, agent calls, releases, unshares and all writes but Ready status patches may fail. */
  lemma NoShareLeaks(k: Claimants, w: World, actions: seq<Action>, r: RemoteShare)
    requires Fresh(k, w) && LegitRun(k, w, actions) && CarefulRun(w, actions)
    requires var net := After(w, actions).net; r in net.remote && r.token in net.owner
    ensures var end := After(w, actions);
            end.net.owner[r.token] in end.crs && end.crs[end.net.owner[r.token]].status.shareToken == r.token
  {
    hide After, LegitRun, CarefulRun, Fresh;
    LeakInvariant(k, w, actions);
    OwnedThroughout(k, w, actions);
  }
}
