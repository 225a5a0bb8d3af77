/** What deletion asks of the agent: to stop serving the share, whether or not the controller can be reached. */
module AgentReleases {
  import opened Deletion
  import opened Inventory
  import opened Leftovers
  import opened Options
  import opened ReleaseEvidence
  import opened ShareFrames
  import opened Shares
  import opened ShareSteps
  import opened Targets
  import opened Zrok

  /** The environment is there, and its credential, if it has one, can be read. */
  predicate Reaches(p: Plan) {
    p.env.Env? && p.env.credential != Unreadable
  }

  predicate AgentServes(net: Net, token: string) {
    exists i :: 0 <= i < |net.agent| && net.agent[i].token == token
  }

  lemma ServedBy(net: Net, token: string)
    ensures AgentServes(net, token) <==> exists d :: d in net.agent && d.token == token
  {
    if AgentServes(net, token) {
      var i :| 0 <= i < |net.agent| && net.agent[i].token == token;
      assert net.agent[i] in net.agent;
    }
  }

  // ----- one attempt -----

  /** The share stage asks the agent first, whatever comes of the controller. */
  lemma ShareStageReleases(s: St, token: string, inv: Inventory, p: Plan)
    requires Reaches(p) && token != "" && IsOurShareToken(s.cr, token, inv)
    ensures var r := DeleteShare(s, token, inv, p);
            && |r.s.net.log| > |s.net.log| && r.s.net.log[|s.net.log|] == Released(token)
            && (p.releaseAnswers ==> !AgentServes(r.s.net, token))
            && (r.More? && AgentServes(s.net, token) ==>
                  (AgentServes(r.s.net, token)
                   <==> !p.releaseAnswers && (p.env.zid == "" || p.env.credential != Token || p.unshare == Denied)))
  {
    hide IsOurShareToken, Cleared, AgentServes;
    var released := ReleaseShare(s.net, token, p.releaseAnswers);
    ServedBy(s.net, token);
    ServedBy(released, token);
    ServedBy(Unshare(released, token, p.unshare).net, token);
    ServedBy(DeleteShare(s, token, inv, p).s.net, token);
  }

  lemma NothingReached(s: St, rival: bool, p: Plan)
    requires !Reaches(p)
    ensures var t := ReconcileDelete(s, rival, p).s; t.net == s.net && t.cr.status == s.cr.status
  {
    hide DeletionToken, IsOurShareToken, LoadInventory;
  }

  /** What comes after the share stage leaves its releases in the log and adds nothing to what the agent serves. */
  lemma LaterStages(s: St, u: St, claimed: bool, inv: Inventory, p: Plan, token: string)
    requires s.net.log <= u.net.log
    ensures var t := DeleteName(u, claimed, inv, p).s;
            && u.net.log <= t.net.log && DropFinalizer(t, p).s.net == t.net
            && (!AgentServes(u.net, token) ==> !AgentServes(t.net, token))
            && (DeleteName(u, claimed, inv, p).More? ==> t.net.agent == u.net.agent)
  {
    hide DeleteName, IsOurShareToken, AttachedHolder, AgentServes;
    DeleteNameFrame(u, claimed, inv, p);
    ServedBy(u.net, token);
    ServedBy(DeleteName(u, claimed, inv, p).s.net, token);
  }

  /** One attempt asks the agent to release the bound share exactly when it gets to read the environment; an answer, or
      an unshare that works, ends its being served. */
  lemma AttemptReleases(s: St, rival: bool, p: Plan)
    requires s.cr.finalizer && s.cr.status.shareToken != ""
    ensures var t, token := ReconcileDelete(s, rival, p).s, s.cr.status.shareToken;
            && (Happened(s, t, Released(token)) <==> Reaches(p))
            && (Reaches(p) && p.releaseAnswers ==> !AgentServes(t.net, token))
            && (Reaches(p) && !t.cr.finalizer && AgentServes(s.net, token) ==>
                  (AgentServes(t.net, token)
                   <==> !p.releaseAnswers && (p.env.zid == "" || p.env.credential != Token || p.unshare == Denied)))
  {
    hide DeleteShare, DeleteName, DeletionToken, LoadInventory, IsOurShareToken, AgentServes, AttachedHolder;
    if Reaches(p) {
      var inv, token := DeletionInventory(s, p), s.cr.status.shareToken;
      var claimed := Claimed(s, rival, p);
      StatusDecides(s.cr, claimed, inv);
      ShareStageReleases(s, token, inv, p);
      DeleteShareFrame(s, token, inv, p);
      var unshared := DeleteShare(s, token, inv, p);
      LogGrows(s, token, inv, p);
      LaterStages(s, unshared.s, claimed, inv, p, token);
      DeleteNameFrame(unshared.s, claimed, inv, p);
      var t := ReconcileDelete(s, rival, p).s;
      assert t.net.log[|s.net.log|] == Released(token);
      SameAgent(DeleteName(unshared.s, claimed, inv, p).s.net, unshared.s.net, token);
    } else {
      NothingReached(s, rival, p);
    }
  }

  lemma SameAgent(a: Net, b: Net, token: string)
    ensures a.agent == b.agent ==> AgentServes(a, token) == AgentServes(b, token)
  {}

  // ----- retries -----

  /** Attempt `k` is still wanted, and gets to read the environment. */
  ghost predicate ReachedAt(s: St, attempts: seq<Attempt>, k: nat) {
    k < |attempts| && Retry(s, attempts[..k]).cr.finalizer && Reaches(attempts[k].plan)
  }

  lemma ReachedEarlier(s: St, attempts: seq<Attempt>)
    requires attempts != []
    ensures var n := |attempts| - 1;
            (exists k: nat :: ReachedAt(s, attempts, k))
            <==> (exists k: nat :: ReachedAt(s, attempts[..n], k)) || ReachedAt(s, attempts, n)
  {
    hide Retry, Reaches;
    var n := |attempts| - 1;
    forall k: nat | k < n
      ensures ReachedAt(s, attempts, k) == ReachedAt(s, attempts[..n], k)
    {
      assert attempts[..n][..k] == attempts[..k] && attempts[..n][k] == attempts[k];
    }
  }

  lemma HappenedLater(s: St, t: St, u: St, e: Event)
    requires s.net.log <= t.net.log <= u.net.log
    ensures Happened(s, u, e) <==> Happened(s, t, e) || Happened(t, u, e)
  {
    if Happened(s, t, e) {
      var i :| |s.net.log| <= i < |t.net.log| && t.net.log[i] == e;
      assert u.net.log[i] == e;
    }
    if Happened(s, u, e) {
      var i :| |s.net.log| <= i < |u.net.log| && u.net.log[i] == e;
      assert i < |t.net.log| ==> t.net.log[i] == e;
    }
  }

  lemma StaysUnserved(s: St, t: St, token: string)
    requires OnlyTakes(s, t) && !AgentServes(s.net, token)
    ensures !AgentServes(t.net, token)
  {
    hide AgentServes;
    ServedBy(s.net, token);
    ServedBy(t.net, token);
  }

  /** Over any attempts, whatever fails in them: the bound share is released at the agent exactly when one of them gets
      to read the environment, and if the agent answers it serves the share no more; until then nothing has happened. */
  lemma {:induction false} RetriesRelease(s: St, attempts: seq<Attempt>)
    requires s.cr.finalizer && s.cr.status.shareToken != ""
    ensures var t, token := Retry(s, attempts), s.cr.status.shareToken;
            if exists k: nat :: ReachedAt(s, attempts, k)
            then Happened(s, t, Released(token))
                 && ((forall i :: 0 <= i < |attempts| ==> attempts[i].plan.releaseAnswers) ==>
                       !AgentServes(t.net, token))
            else t.net == s.net && t.cr.status == s.cr.status && !Happened(s, t, Released(token))
  {
    hide ReconcileDelete, Reaches, AgentServes, ReachedAt, Happened;
    if attempts == [] {
      NoneReached(s);
    } else {
      var n, token := |attempts| - 1, s.cr.status.shareToken;
      var earlier, last := attempts[..n], attempts[n];
      var t, u := Retry(s, earlier), Retry(s, attempts);
      RetriesRelease(s, earlier);
      ReachedEarlier(s, attempts);
      RetryTakes(s, earlier);
      AttemptTakes(t, last.rival, last.plan);
      HappenedLater(s, t, u, Released(token));
      if exists k: nat :: ReachedAt(s, earlier, k) {
        if !AgentServes(t.net, token) {
          StaysUnserved(t, u, token);
        }
      } else {
        LastAttempt(s, attempts);
      }
    }
  }

  lemma NoneReached(s: St)
    ensures !(exists k: nat :: ReachedAt(s, [], k)) && forall e :: !Happened(s, s, e)
  {}

  /** The first attempt to get that far, or one more that does not. */
  lemma LastAttempt(s: St, attempts: seq<Attempt>)
    requires attempts != [] && s.cr.finalizer && s.cr.status.shareToken != ""
    requires var t := Retry(s, attempts[..|attempts| - 1]); t.net == s.net && t.cr.status == s.cr.status
    ensures var n, token := |attempts| - 1, s.cr.status.shareToken;
            var t, u := Retry(s, attempts[..n]), Retry(s, attempts);
            if ReachedAt(s, attempts, n)
            then Happened(t, u, Released(token))
                 && (attempts[n].plan.releaseAnswers ==> !AgentServes(u.net, token))
            else u.net == s.net && u.cr.status == s.cr.status && !Happened(t, u, Released(token))
  {
    hide ReconcileDelete, Reaches, AgentServes;
    var n := |attempts| - 1;
    var t, last := Retry(s, attempts[..n]), attempts[n];
    if !t.cr.finalizer {
      NothingToDo(t, last.rival, last.plan);
    } else {
      AttemptReleases(t, last.rival, last.plan);
      if !Reaches(last.plan) {
        NothingReached(t, last.rival, last.plan);
      }
    }
  }

  lemma DropNeedsReading(s: St, rival: bool, p: Plan)
    requires s.cr.finalizer && !ReconcileDelete(s, rival, p).s.cr.finalizer && p.env.Env?
    ensures Reaches(p)
  {}

  /** So when the finalizer goes at an attempt that found the environment, the agent has been asked; and if it answers,
      it serves the share no more, whatever became of the credential and of the controller. */
  lemma FinishedMeansReleased(s: St, attempts: seq<Attempt>, k: nat)
    requires s.cr.finalizer && s.cr.status.shareToken != "" && DropsAt(s, attempts, k) && attempts[k].plan.env.Env?
    ensures Happened(s, Retry(s, attempts), Released(s.cr.status.shareToken))
    ensures (forall i :: 0 <= i < |attempts| ==> attempts[i].plan.releaseAnswers) ==>
              !AgentServes(Retry(s, attempts).net, s.cr.status.shareToken)
  {
    hide ReconcileDelete, AgentServes, Happened;
    assert attempts[..k + 1][..k] == attempts[..k];
    DropNeedsReading(Retry(s, attempts[..k]), attempts[k].rival, attempts[k].plan);
    assert ReachedAt(s, attempts, k);
    RetriesRelease(s, attempts);
  }

  // ----- a holder that status does not name -----

  /** Some release of `token` is among what `t` logged on top of `s`. */
  lemma ReleaseHappened(s: St, t: St, u: St, e: Event)
    requires s.net.log <= t.net.log && u.net.log == t.net.log
    ensures Happened(s, u, e) == Happened(s, t, e)
  {
    if Happened(s, t, e) {
      var i :| |s.net.log| <= i < |t.net.log| && t.net.log[i] == e;
      assert u.net.log[i] == e;
    }
    if Happened(s, u, e) {
      var i :| |s.net.log| <= i < |u.net.log| && u.net.log[i] == e;
      assert t.net.log[i] == e;
    }
  }

  /** The share stage releases nothing but the token it was given. */
  lemma ShareStageOnly(s: St, token: string, inv: Inventory, p: Plan, other: string)
    ensures var t := DeleteShare(s, token, inv, p).s;
            Happened(s, t, Released(other))
            <==> p.env.Env? && token != "" && IsOurShareToken(s.cr, token, inv) && other == token
  {
    hide IsOurShareToken, Cleared;
    var t := DeleteShare(s, token, inv, p).s;
    if p.env.Env? && token != "" && IsOurShareToken(s.cr, token, inv) {
      assert t.net.log[|s.net.log|] == Released(token);
    }
  }

  /** The name stage releases nothing but the share the name turns out to be attached to, if that is ours. */
  lemma NameStageOnly(s: St, claimed: bool, inv: Inventory, p: Plan, token: string)
    requires ReservedName(s.cr.spec) != ""
    ensures var t := DeleteName(s, claimed, inv, p).s;
            Happened(s, t, Released(token))
            <==> ViewEnv(p.env).authorized && s.cr.spec.reclaimPolicy != Retain && !claimed
                 && DeleteReply(s.net, WantedKey(s.cr.spec), p.reclaim) == Attached(token)
                 && IsOurShareToken(s.cr, token, inv)
  {
    hide IsOurShareToken, NamespaceToken, DeleteReply, AttachedHolder;
    var key := WantedKey(s.cr.spec);
    var reply := DeleteReply(s.net, key, p.reclaim);
    var asked := DeleteShareName(s.net, key, p.reclaim).net;
    var t := DeleteName(s, claimed, inv, p).s;
    assert asked.log[|s.net.log|] == DeletedName(key, reply);
    if ViewEnv(p.env).authorized && s.cr.spec.reclaimPolicy != Retain && !claimed && reply.Attached?
       && IsOurShareToken(s.cr, reply.token, inv) {
      assert t.net.log[|s.net.log| + 1] == Released(reply.token);
    }
  }

  /** What the account says about the name once the share stage is through. */
  function NameReply(s: St, holder: RemoteShare, taken: bool, p: Plan): Reply {
    var gone := taken && p.env.Env? && p.env.zid != "" && p.env.credential == Token && p.unshare == NoFault;
    DeleteReply(if gone then s.net.(remote := WithoutRemote(s.net.remote, holder.token)) else s.net,
                WantedKey(s.cr.spec), p.reclaim)
  }

  /** With nothing in status, a deletion asks the agent to release a share exactly when it reads the environment,
      sees no other claimant, and either takes the holder of the name for its own, or finds the name attached to that
      share, which does not look like somebody else's, when giving the name back. */
  lemma UnboundReleaseExactly(s: St, holder: RemoteShare, rival: bool, p: Plan, token: string)
    requires UnboundClaimant(s, holder)
    ensures var inv, picked := DeletionInventory(s, p), Picks(s, holder, p);
            Happened(s, ReconcileDelete(s, rival, p).s, Released(token))
            <==> && Reaches(p) && !(p.resourcesListed && rival)
                 && ((picked && token == holder.token)
                     || (p.env.credential == Token && s.cr.spec.reclaimPolicy != Retain
                         && (picked && p.env.zid != "" ==> p.unshare in {NoFault, Denied})
                         && NameReply(s, holder, picked, p) == Attached(token) && !NotOurs(s.cr.spec, token, inv)))
  {
    hide DeleteShare, DeleteName, DeletionToken, LoadInventory, Picks, NotOurs, IsOurShareToken, DeleteReply;
    hide TokensIdentify, AgentBacked, OneHolder, AttachedHolder, NamespaceToken, Happened, NameReply;
    var inv, claimed := DeletionInventory(s, p), Claimed(s, rival, p);
    if !Reaches(p) {
      NothingReached(s, rival, p);
      SameLog(s, ReconcileDelete(s, rival, p).s);
    } else {
      var own := DeletionToken(s.cr, claimed, inv);
      ClaimedChoosesNone(s.cr, inv);
      if !claimed {
        PicksHolder(s, holder, p);
      }
      var unshared := DeleteShare(s, own, inv, p);
      ShareStageOnly(s, own, inv, p, token);
      DeleteShareFrame(s, own, inv, p);
      LogGrows(s, own, inv, p);
      var t := DeleteName(unshared.s, claimed, inv, p).s;
      DeleteNameFrame(unshared.s, claimed, inv, p);
      NameStageOnly(unshared.s, claimed, inv, p, token);
      HappenedLater(s, unshared.s, t, Released(token));
      DropKeepsNet(t, p);
      ReleaseHappened(s, t, DropFinalizer(t, p).s, Released(token));
      StagesMeet(s, holder, claimed, inv, p);
      UnboundOurs(unshared.s.cr, token, inv);
    }
  }

  lemma SameLog(s: St, t: St)
    requires t.net == s.net
    ensures forall e :: !Happened(s, t, e)
  {}

  lemma ClaimedChoosesNone(c: ZrokShare, inv: Inventory)
    ensures c.status.shareToken == "" ==> DeletionToken(c, true, inv) == ""
  {}

  /** Where the share stage leaves the account for the name stage. */
  lemma StagesMeet(s: St, holder: RemoteShare, claimed: bool, inv: Inventory, p: Plan)
    requires UnboundClaimant(s, holder) && inv == DeletionInventory(s, p) && Reaches(p)
    ensures var picked, unshared :=
              Picks(s, holder, p) && !claimed, DeleteShare(s, DeletionToken(s.cr, claimed, inv), inv, p);
            && unshared.s.cr == s.cr
            && (unshared.More? <==> (picked && p.env.zid != "" && p.env.credential == Token ==>
                                       p.unshare in {NoFault, Denied}))
            && DeleteReply(unshared.s.net, WantedKey(s.cr.spec), p.reclaim) == NameReply(s, holder, picked, p)
  {
    hide DeleteShare, DeletionToken, LoadInventory, Picks, IsOurShareToken, NamespaceToken, RemoteByName, DeleteReply;
    hide UnboundClaimant, WithoutRemote;
    var own := DeletionToken(s.cr, claimed, inv);
    var unshared := DeleteShare(s, own, inv, p);
    ClaimantEmpty(s, holder);
    ClaimedChoosesNone(s.cr, inv);
    if !claimed {
      PicksHolder(s, holder, p);
    }
    if Picks(s, holder, p) && !claimed {
      UnboundShareStage(s, own, inv, p);
      TakenReply(s, holder, unshared.s.net, p);
    } else {
      DeleteShareFrame(s, own, inv, p);
    }
  }

  lemma ClaimantEmpty(s: St, holder: RemoteShare)
    requires UnboundClaimant(s, holder)
    ensures s.cr.status.shareToken == "" && s.cr.status.assignedURL == ""
  {
    hide TokensIdentify, AgentBacked, OneHolder, RemoteByName;
  }

  lemma TakenReply(s: St, holder: RemoteShare, net: Net, p: Plan)
    requires p.env.Env? && net.names == s.net.names && net.taken == s.net.taken
    requires net.remote == if p.env.zid != "" && p.env.credential == Token && p.unshare == NoFault
                           then WithoutRemote(s.net.remote, holder.token) else s.net.remote
    ensures DeleteReply(net, WantedKey(s.cr.spec), p.reclaim) == NameReply(s, holder, true, p)
  {
    hide NamespaceToken, WithoutRemote;
  }

  /** Whatever else the controller lists, the share that the agent serves under an unclaimed name is the first one
      asked for, unless the controller lists that very share for another target. */
  lemma AgentsShareFirst(s: St, rival: bool, p: Plan, d: ShareDetail)
    requires s.cr.finalizer && s.cr.status.shareToken == "" && Reaches(p) && !(p.resourcesListed && rival)
    requires AgentByName(DeletionInventory(s, p).agent, ReservedName(s.cr.spec)) == Some(d) && d.token != ""
    requires !NotOurs(s.cr.spec, d.token, DeletionInventory(s, p))
    ensures var log := ReconcileDelete(s, rival, p).s.net.log;
            |log| > |s.net.log| && log[|s.net.log|] == Released(d.token)
  {
    hide DeleteShare, DeleteName, LoadInventory, IsOurShareToken, NotOurs, AttachedHolder, AgentServes, DeletionToken;
    hide AgentByName, DeletionInventory;
    var inv, claimed := DeletionInventory(s, p), Claimed(s, rival, p);
    AgentChosen(s.cr, inv, d);
    Stages(s, rival, p);
    UnboundOurs(s.cr, d.token, inv);
    ShareStageReleases(s, d.token, inv, p);
    var unshared := DeleteShare(s, d.token, inv, p);
    LogGrows(s, d.token, inv, p);
    LaterStages(s, unshared.s, claimed, inv, p, d.token);
  }

  lemma AgentChosen(c: ZrokShare, inv: Inventory, d: ShareDetail)
    requires c.status.shareToken == "" && AgentByName(inv.agent, ReservedName(c.spec)) == Some(d) && d.token != ""
    ensures DeletionToken(c, false, inv) == d.token
  {
    hide AgentByName, RemoteByName, TargetsEqual;
  }

  /** A deletion that reads the environment goes through its stages in this order. */
  lemma Stages(s: St, rival: bool, p: Plan)
    requires s.cr.finalizer && Reaches(p)
    ensures var inv, claimed := DeletionInventory(s, p), Claimed(s, rival, p);
            var unshared := DeleteShare(s, DeletionToken(s.cr, claimed, inv), inv, p);
            var unnamed := DeleteName(unshared.s, claimed, inv, p);
            ReconcileDelete(s, rival, p)
            == if unshared.Done? then unshared else if unnamed.Done? then unnamed else DropFinalizer(unnamed.s, p)
  {
    hide DeleteShare, DeleteName, DeletionToken, LoadInventory, DropFinalizer;
  }
}
