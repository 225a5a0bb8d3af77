/** No step of any run takes down a share of another resource. */
module OwnReleases {
  import opened Options
  import opened Digest
  import opened Inventory
  import opened Ownership
  import opened ReleaseEvidence
  import opened ShareFrames
  import opened Shares
  import opened ShareSteps
  import opened ShareWorld
  import opened Targets
  import opened Zrok

  ghost predicate AllOwnedBy(net: Net, tokens: set<string>, id: Id) {
    forall t :: t in tokens ==> OwnedBy(net, t, id)
  }

  lemma CreateTargetsOwn(k: Claimants, s: St, p: Plan)
    requires p.env.Env? && LocallyOwned(k, s)
    ensures AllOwnedBy(s.net, CreateTargets(s, p), s.cr.id)
  {
    hide Classify, ReleaseTarget, ConflictTarget, SharePublic;
    var inv := LoadInventory(s.net, p.env.zid, p.remoteListedAgain, p.agentAnswersAgain);
    var second := ConflictTarget(s.cr, ConflictView(s, p));
    if second.Some? {
      TargetIsOwn(k, s, inv, second.value);
    }
  }

  lemma PassTargetsOwn(k: Claimants, s: St, p: Plan)
    requires p.env.Env? && LocallyOwned(k, s)
    ensures AllOwnedBy(s.net, PassTargets(s, p), s.cr.id)
  {
    hide Classify, ReleaseTarget, CreateTargets, Names, TakeDown, LocallyOwned;
    var inv := LoadInventory(s.net, p.env.zid, p.remoteListed, p.agentAnswers);
    var named := Names(s, p);
    NamesFrame(s, p);
    NamesKeep(k, s, p);
    KeptMeansOwned(k, s, named.s);
    FirstTargetOwn(k, s, named.s, inv);
    TakeDownKeeps(k, named.s, Classify(s.cr, inv), p);
    TakeDownFrame(named.s, Classify(s.cr, inv), p);
    var down := TakeDown(named.s, Classify(s.cr, inv), p);
    KeptMeansOwned(k, named.s, down.s);
    CreateTargetsOwn(k, down.s, p);
  }

  lemma FirstTargetOwn(k: Claimants, s: St, t: St, inv: Inventory)
    requires LocallyOwned(k, s) && t.cr.spec == s.cr.spec && t.cr.status.shareToken == s.cr.status.shareToken
    requires forall q :: q in inv.remote ==> q in s.net.remote
    requires forall e :: e in inv.agent ==> e in s.net.agent
    ensures var first := ReleaseTarget(t.cr, Classify(s.cr, inv)); first.Some? ==> OwnedBy(s.net, first.value, s.cr.id)
  {
    hide Classify, TargetsEqual, LocallyOwned;
    var first := ReleaseTarget(t.cr, Classify(s.cr, inv));
    assert first == ReleaseTarget(s.cr, Classify(s.cr, inv));
    if first.Some? {
      TargetOwnHere(k, s, inv, first.value);
    }
  }

  lemma TargetOwnHere(k: Claimants, s: St, inv: Inventory, token: string)
    requires LocallyOwned(k, s) && ReleaseTarget(s.cr, Classify(s.cr, inv)) == Some(token)
    requires forall q :: q in inv.remote ==> q in s.net.remote
    requires forall e :: e in inv.agent ==> e in s.net.agent
    ensures OwnedBy(s.net, token, s.cr.id)
  {
    hide Classify, ReleaseTarget;
    TargetIsOwn(k, s, inv, token);
  }

  lemma ReconcileReleasesOwn(k: Claimants, s: St, rival: bool, p: Plan)
    requires LocallyOwned(k, s)
    ensures exists tokens ::
              AllOwnedBy(s.net, tokens, s.cr.id) && ReleasesOnly(Reconcile(s, rival, p).s.net.log, |s.net.log|, tokens)
  {
    hide Admit, Converge, ApplyDigest, LocallyOwned, PassTargets, AllOwnedBy;
    AdmitFrame(s, rival, p);
    var admitted := Admit(s, rival, p);
    if admitted.More? {
      PassReleases(s, ApplyDigest(s.cr.spec, p.basicAuth.value), p);
      PassTargetsOwn(k, s, p);
    } else {
      NoTokens(s);
      assert ReleasesOnly(admitted.s.net.log, |s.net.log|, {});
    }
  }

  lemma NoTokens(s: St)
    ensures AllOwnedBy(s.net, {}, s.cr.id)
  {}

  // ----- deletion -----

  lemma HolderIsOwn(k: Claimants, s: St, inv: Inventory, p: Plan)
    requires LocallyOwned(k, s) && AttachedHolder(s, p).Some? && IsOurShareToken(s.cr, AttachedHolder(s, p).value, inv)
    requires p.reclaim.Conflict? ==>
               RemoteByToken(inv.remote, p.reclaim.token).None? && AgentByToken(inv.agent, p.reclaim.token).None?
    ensures OwnedBy(s.net, AttachedHolder(s, p).value, s.cr.id)
  {
    hide TargetsEqual;
    var holder := AttachedHolder(s, p).value;
    if p.reclaim == NoFault {
      var r := RemoteByName(s.net.remote, ReservedName(s.cr.spec)).value;
      RemoteIsOwn(k, s, Inventory(true, s.net.remote, []), r);
    }
  }

  lemma ConflictTokenUnseen(k: Claimants, s: St, p: Plan)
    requires LocallyOwned(k, s) && PlanFits(k, s.net, s.cr, p) && p.reclaim.Conflict?
    ensures var inv := DeletionInventory(s, p);
            RemoteByToken(inv.remote, p.reclaim.token).None? && AgentByToken(inv.agent, p.reclaim.token).None?
  {
    forall d | d in s.net.agent
      ensures d.token != p.reclaim.token
    {
      var r :| r in s.net.remote && r.token == d.token && r.target == d.backendEndpoint
               && r.frontendEndpoints == d.frontendEndpoints;
    }
  }

  lemma DeleteReleasesOwn(k: Claimants, s: St, rival: bool, p: Plan)
    requires LocallyOwned(k, s) && PlanFits(k, s.net, s.cr, p)
    ensures exists tokens :: AllOwnedBy(s.net, tokens, s.cr.id)
                             && ReleasesOnly(ReconcileDelete(s, rival, p).s.net.log, |s.net.log|, tokens)
  {
    hide LocallyOwned, PlanFits, DeleteShare, DeleteName, DropFinalizer, DeletionToken, IsOurShareToken, AttachedHolder;
    hide OwnershipKept, AllOwnedBy, ReleasesOnly;
    var inv := DeletionInventory(s, p);
    var claimed := ReservedName(s.cr.spec) != "" && p.resourcesListed && rival;
    var token := DeletionToken(s.cr, claimed, inv);
    var unshared := DeleteShare(s, token, inv, p);
    var unnamed := DeleteName(unshared.s, claimed, inv, p);
    var first := if token != "" then {token} else {};
    assert AllOwnedBy(s.net, first, s.cr.id) by { FirstDeletion(k, s, claimed, inv, p); }
    DeleteShareReleases(s, token, inv, p);
    SecondDeletion(k, s, unshared.s, claimed, inv, p);
    var second := SecondTokens(unshared.s, inv, p);
    Join(unshared.s.net.log, unnamed.s.net.log, |s.net.log|, first, second);
    BothOwned(s.net, first, second, s.cr.id);
    NothingReleased(s);
    MoreTokens(unshared.s.net.log, |s.net.log|, first, second);
    var end := DropFinalizer(unnamed.s, p);
    assert end.s.net == unnamed.s.net by { DropKeepsNet(unnamed.s, p); }
    assert AllOwnedBy(s.net, first + second, s.cr.id) && AllOwnedBy(s.net, {}, s.cr.id);
    assert ReconcileDelete(s, rival, p).s.net in {s.net, unshared.s.net, unnamed.s.net};
  }

  lemma DropKeepsNet(s: St, p: Plan)
    ensures DropFinalizer(s, p).s.net == s.net
  {}

  lemma NothingReleased(s: St)
    ensures AllOwnedBy(s.net, {}, s.cr.id) && ReleasesOnly(s.net.log, |s.net.log|, {})
  {}

  lemma MoreTokens(log: seq<Event>, n: nat, tokens: set<string>, more: set<string>)
    requires ReleasesOnly(log, n, tokens)
    ensures ReleasesOnly(log, n, tokens + more)
  {}

  lemma BothOwned(net: Net, first: set<string>, second: set<string>, id: Id)
    requires AllOwnedBy(net, first, id) && AllOwnedBy(net, second, id)
    ensures AllOwnedBy(net, first + second, id)
  {}

  lemma FirstDeletion(k: Claimants, s: St, claimed: bool, inv: Inventory, p: Plan)
    requires LocallyOwned(k, s) && inv == DeletionInventory(s, p)
    ensures var token := DeletionToken(s.cr, claimed, inv);
            AllOwnedBy(s.net, if token != "" then {token} else {}, s.cr.id)
  {
    hide DeletionToken, LocallyOwned;
    DeletionTokenIsOwn(k, s, claimed, inv);
  }

  lemma DeleteShareReleases(s: St, token: string, inv: Inventory, p: Plan)
    ensures var t := DeleteShare(s, token, inv, p).s;
            s.net.log <= t.net.log && ReleasesOnly(t.net.log, |s.net.log|, if token != "" then {token} else {})
  {
    hide DeleteShare, IsOurShareToken;
    DeleteShareFrame(s, token, inv, p);
  }

  function SecondTokens(s: St, inv: Inventory, p: Plan): set<string> {
    var holder := AttachedHolder(s, p);
    if holder.Some? && IsOurShareToken(s.cr, holder.value, inv) then {holder.value} else {}
  }

  lemma SecondDeletion(k: Claimants, s: St, t: St, claimed: bool, inv: Inventory, p: Plan)
    requires LocallyOwned(k, s) && PlanFits(k, s.net, s.cr, p) && inv == DeletionInventory(s, p)
    requires t == DeleteShare(s, DeletionToken(s.cr, claimed, inv), inv, p).s
    ensures AllOwnedBy(s.net, SecondTokens(t, inv, p), s.cr.id)
    ensures var u := DeleteName(t, claimed, inv, p).s;
            t.net.log <= u.net.log && ReleasesOnly(u.net.log, |t.net.log|, SecondTokens(t, inv, p))
  {
    hide LocallyOwned, PlanFits, DeleteShare, DeleteName, DeletionToken, IsOurShareToken, AttachedHolder;
    var token := DeletionToken(s.cr, claimed, inv);
    DeleteShareKeeps(k, s, token, inv, p);
    DeleteShareFrame(s, token, inv, p);
    KeptMeansOwned(k, s, t);
    DeleteNameFrame(t, claimed, inv, p);
    if p.reclaim.Conflict? {
      ConflictTokenUnseen(k, s, p);
    }
    var holder := AttachedHolder(t, p);
    if holder.Some? && IsOurShareToken(t.cr, holder.value, inv) {
      HolderIsOwn(k, t, inv, p);
    }
  }

  /** In any run, whatever calls fail, a reconcile or deletion of `id` releases and unshares only shares created for
      `id`. */
  lemma OnlyOwnSharesReleased(k: Claimants, w: World, actions: seq<Action>, id: Id, p: Plan, i: nat)
    requires Fresh(k, w) && LegitRun(k, w, actions)
    requires id in After(w, actions).crs && Legit(k, After(w, actions), Run(id, p))
    requires var log := Step(After(w, actions), Run(id, p)).net.log;
             |After(w, actions).net.log| <= i < |log| && IsRelease(log[i])
    ensures var before := After(w, actions);
            OwnedBy(before.net, Step(before, Run(id, p)).net.log[i].token, id)
  {
    hide After, LegitRun, Fresh, Reconcile, ReconcileDelete, PlanFits, Rival;
    OwnedThroughout(k, w, actions);
    var before := After(w, actions);
    var s := St(before.crs[id], before.net);
    if s.cr.deleting {
      DeleteReleasesOwn(k, s, Rival(before.crs, id), p);
    } else {
      ReconcileReleasesOwn(k, s, Rival(before.crs, id), p);
    }
  }
}
