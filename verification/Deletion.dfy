/** When the finalizer goes, and that it goes. */
module Deletion {
  import opened Options
  import opened Convergence
  import opened Inventory
  import opened ReleaseEvidence
  import opened ShareFrames
  import opened Shares
  import opened ShareSteps
  import opened Targets
  import opened Zrok

  /** The environment has an identity and a credential, and the list of resources can be read. */
  predicate Equipped(p: Plan) {
    p.env.Env? && p.env.zid != "" && p.env.credential == Token && p.resourcesListed
  }

  predicate Listed(net: Net, token: string) {
    exists i :: 0 <= i < |net.remote| && net.remote[i].token == token
  }

  lemma SameListed(before: Net, after: Net, token: string)
    requires after.remote == before.remote
    ensures Listed(after, token) == Listed(before, token)
  {}

  lemma NotListed(before: Net, after: Net, token: string)
    requires after.remote == WithoutRemote(before.remote, token)
    ensures !Listed(after, token)
  {}

  ghost predicate Happened(s: St, t: St, e: Event) {
    exists i :: |s.net.log| <= i < |t.net.log| && t.net.log[i] == e
  }

  /** The share in status is gone from the controller, or the controller refused to let it go. */
  ghost predicate ShareAccounted(s: St, t: St, token: string) {
    !Listed(t.net, token) || Happened(s, t, Unshared(token, Unauthorized))
  }

  /** From `s` to `t` the name went, or the controller refused to delete it, or another live resource claims it, or
      it is attached to a share that, with the remote list read, is not seen to be ours. */
  ghost predicate NameAccounted(s: St, t: St, rival: bool, inv: Inventory) {
    var key := WantedKey(s.cr.spec);
    || key !in t.net.names
    || rival
    || Happened(s, t, DeletedName(key, Unauthorized))
    || (inv.listed && exists holder ::
          NotOurs(s.cr.spec, holder, inv) && Happened(s, t, DeletedName(key, Attached(holder))))
  }

  /** The inventory gives no reason to take the share for ours: it lists it with another target, or not at all. */
  predicate NotOurs(spec: ShareSpec, holder: string, inv: Inventory) {
    holder == "" || (if RemoteByToken(inv.remote, holder).Some?
                     then !TargetsEqual(RemoteByToken(inv.remote, holder).value.target, spec.upstream)
                     else AgentByToken(inv.agent, holder).None?)
  }

  lemma OursOrNot(c: ZrokShare, holder: string, inv: Inventory)
    ensures !IsOurShareToken(c, holder, inv) ==> NotOurs(c.spec, holder, inv)
  {
    hide TargetsEqual;
  }

  lemma DeletedShareAccounted(s: St, token: string, inv: Inventory, p: Plan)
    requires Equipped(p) && token != "" && IsOurShareToken(s.cr, token, inv) && DeleteShare(s, token, inv, p).More?
    ensures ShareAccounted(s, DeleteShare(s, token, inv, p).s, token)
  {
    hide IsOurShareToken, Conditions.Apply;
    var t := DeleteShare(s, token, inv, p).s;
    assert p.unshare == NoFault || Injected(p.unshare) == Unauthorized;
    if p.unshare == NoFault {
      assert t.net.remote == WithoutRemote(s.net.remote, token);
      assert forall r :: r in t.net.remote ==> r.token != token;
    } else {
      assert t.net.log == s.net.log + [Released(token)] + [Unshared(token, Unauthorized)];
      assert t.net.log[|s.net.log| + 1] == Unshared(token, Unauthorized);
    }
  }

  lemma DeletedNameAccounted(s: St, claimed: bool, inv: Inventory, p: Plan)
    requires Equipped(p) && s.cr.spec.reclaimPolicy != Retain && ReservedName(s.cr.spec) != ""
    requires DeleteName(s, claimed, inv, p).More?
    ensures NameAccounted(s, DeleteName(s, claimed, inv, p).s, claimed, inv)
    ensures s.net.log <= DeleteName(s, claimed, inv, p).s.net.log
    ensures DeleteName(s, claimed, inv, p).s.net.remote == s.net.remote
  {
    hide IsOurShareToken, NamespaceToken, DeleteReply, NotOurs;
    if !claimed {
      var key := WantedKey(s.cr.spec);
      var reply := DeleteReply(s.net, key, p.reclaim);
      var t := DeleteName(s, claimed, inv, p).s;
      assert t.net.log == s.net.log + [DeletedName(key, reply)];
      assert t.net.log[|s.net.log|] == DeletedName(key, reply);
      if reply.Attached? {
        OursOrNot(s.cr, reply.token, inv);
      }
    }
  }

  lemma AccountedLater(s: St, t: St, u: St, token: string)
    requires ShareAccounted(s, t, token) && t.net.log <= u.net.log && u.net.remote == t.net.remote
    ensures ShareAccounted(s, u, token)
  {
    if Happened(s, t, Unshared(token, Unauthorized)) {
      var i :| |s.net.log| <= i < |t.net.log| && t.net.log[i] == Unshared(token, Unauthorized);
      assert u.net.log[i] == Unshared(token, Unauthorized);
    }
  }

  lemma NameAccountedEarlier(s: St, t: St, u: St, rival: bool, inv: Inventory)
    requires NameAccounted(t, u, rival, inv) && s.net.log <= t.net.log && t.cr.spec == s.cr.spec
    ensures NameAccounted(s, u, rival, inv)
  {
    hide IsOurShareToken, NotOurs;
    forall e | Happened(t, u, e)
      ensures Happened(s, u, e)
    {
      var i :| |t.net.log| <= i < |u.net.log| && u.net.log[i] == e;
    }
  }

  /** One attempt drops the finalizer only when the share in status and, unless retained, the name are accounted for. */
  lemma AttemptContract(s: St, rival: bool, p: Plan)
    requires s.cr.finalizer && Equipped(p) && !ReconcileDelete(s, rival, p).s.cr.finalizer
    ensures var t := ReconcileDelete(s, rival, p).s;
            && (s.cr.status.shareToken != "" ==> ShareAccounted(s, t, s.cr.status.shareToken))
            && (s.cr.spec.reclaimPolicy != Retain && ReservedName(s.cr.spec) != "" ==>
                  NameAccounted(s, t, rival, DeletionInventory(s, p)))
  {
    hide DeleteShare, DeleteName, DeletionToken, LoadInventory, ShareAccounted, NameAccounted, IsOurShareToken;
    var inv := DeletionInventory(s, p);
    var claimed := ReservedName(s.cr.spec) != "" && p.resourcesListed && rival;
    var token := DeletionToken(s.cr, claimed, inv);
    if s.cr.status.shareToken != "" {
      StatusDecides(s.cr, claimed, inv);
    }
    DeleteShareFrame(s, token, inv, p);
    var unshared := DeleteShare(s, token, inv, p);
    LogGrows(s, token, inv, p);
    DeleteNameFrame(unshared.s, claimed, inv, p);
    var unnamed := DeleteName(unshared.s, claimed, inv, p);
    var t := ReconcileDelete(s, rival, p).s;
    assert unshared.More? && unnamed.More? && t.net == unnamed.s.net;
    if s.cr.status.shareToken != "" {
      DeletedShareAccounted(s, token, inv, p);
      AccountedLater(s, unshared.s, t, token);
    }
    if s.cr.spec.reclaimPolicy != Retain && ReservedName(s.cr.spec) != "" {
      DeletedNameAccounted(unshared.s, claimed, inv, p);
      SameNetAccounted(unshared.s, unnamed.s, t, rival, inv);
      NameAccountedEarlier(s, unshared.s, t, rival, inv);
    }
  }

  lemma LogGrows(s: St, token: string, inv: Inventory, p: Plan)
    ensures s.net.log <= DeleteShare(s, token, inv, p).s.net.log
  {
    hide DeleteShare, IsOurShareToken;
    DeleteShareFrame(s, token, inv, p);
  }

  lemma SameNetAccounted(s: St, t: St, u: St, rival: bool, inv: Inventory)
    requires NameAccounted(s, t, rival, inv) && u.net == t.net
    ensures NameAccounted(s, u, rival, inv)
  {
    hide IsOurShareToken, NotOurs;
    forall e | Happened(s, t, e)
      ensures Happened(s, u, e)
    {
      var i :| |s.net.log| <= i < |t.net.log| && t.net.log[i] == e;
    }
  }

  lemma StatusDecides(c: ZrokShare, claimed: bool, inv: Inventory)
    requires c.status.shareToken != ""
    ensures DeletionToken(c, claimed, inv) == c.status.shareToken && IsOurShareToken(c, c.status.shareToken, inv)
  {
    hide TargetsEqual, AgentByName, RemoteByName;
  }

  // ----- retries -----

  /** One more deletion reconcile, with or without another claimant in sight. */
  datatype Attempt = Attempt(rival: bool, plan: Plan)

  function Retry(s: St, attempts: seq<Attempt>): St {
    if attempts == [] then s
    else
      var t := Retry(s, attempts[..|attempts| - 1]);
      ReconcileDelete(t, attempts[|attempts| - 1].rival, attempts[|attempts| - 1].plan).s
  }

  /** What an attempt may do to the outside: the log grows, no share appears. */
  ghost predicate OnlyTakes(s: St, t: St) {
    && s.net.log <= t.net.log && (forall r :: r in t.net.remote ==> r in s.net.remote)
    && (forall d :: d in t.net.agent ==> d in s.net.agent) && t.cr.spec == s.cr.spec
  }

  lemma AttemptTakes(s: St, rival: bool, p: Plan)
    ensures OnlyTakes(s, ReconcileDelete(s, rival, p).s)
  {
    hide DeleteShare, DeleteName, DeletionToken, LoadInventory, IsOurShareToken, AttachedHolder;
    var inv := DeletionInventory(s, p);
    var claimed := ReservedName(s.cr.spec) != "" && p.resourcesListed && rival;
    var token := DeletionToken(s.cr, claimed, inv);
    DeleteShareFrame(s, token, inv, p);
    var unshared := DeleteShare(s, token, inv, p).s;
    LogGrows(s, token, inv, p);
    DeleteNameFrame(unshared, claimed, inv, p);
  }

  lemma TakesOn(s: St, t: St, u: St)
    requires OnlyTakes(s, t) && OnlyTakes(t, u)
    ensures OnlyTakes(s, u)
  {}

  lemma {:induction false} RetryTakes(s: St, attempts: seq<Attempt>)
    ensures OnlyTakes(s, Retry(s, attempts))
  {
    hide ReconcileDelete;
    if attempts != [] {
      var earlier, last := attempts[..|attempts| - 1], attempts[|attempts| - 1];
      RetryTakes(s, earlier);
      AttemptTakes(Retry(s, earlier), last.rival, last.plan);
      TakesOn(s, Retry(s, earlier), Retry(s, attempts));
    }
  }

  /** An account given once stays good. */
  lemma StaysAccounted(s: St, t: St, u: St, token: string)
    requires ShareAccounted(s, t, token) && OnlyTakes(t, u)
    ensures ShareAccounted(s, u, token)
  {
    if Listed(u.net, token) {
      var i :| 0 <= i < |u.net.remote| && u.net.remote[i].token == token;
      assert u.net.remote[i] in t.net.remote;
      var j :| |s.net.log| <= j < |t.net.log| && t.net.log[j] == Unshared(token, Unauthorized);
      assert u.net.log[j] == Unshared(token, Unauthorized);
    }
  }

  lemma AccountedFrom(s: St, t: St, u: St, token: string)
    requires ShareAccounted(t, u, token) && OnlyTakes(s, t)
    ensures ShareAccounted(s, u, token)
  {
    if Happened(t, u, Unshared(token, Unauthorized)) {
      var i :| |t.net.log| <= i < |u.net.log| && u.net.log[i] == Unshared(token, Unauthorized);
    }
  }

  /** Nothing that decides which share goes with the resource has changed. */
  ghost predicate Intact(s: St, t: St) {
    && t.cr == s.cr && t.net.remote == s.net.remote && forall d :: d in t.net.agent ==> d in s.net.agent
  }

  /** The share that must go: the one in status or, when status is empty, the one share under the name, if it has the
      desired target. */
  ghost predicate MustGo(s: St, token: string) {
    && token != ""
    && (token == s.cr.status.shareToken
        || (s.cr.status.shareToken == "" && TokensIdentify(s.net) && AgentBacked(s.net)
            && OneHolder(s.net.remote, ReservedName(s.cr.spec))
            && RemoteByName(s.net.remote, ReservedName(s.cr.spec)).Some?
            && RemoteByName(s.net.remote, ReservedName(s.cr.spec)).value.token == token
            && TargetsEqual(RemoteByName(s.net.remote, ReservedName(s.cr.spec)).value.target, s.cr.spec.upstream)))
  }

  /** The attempt can tell: status names the share, or the remote list is read and nobody else claims the name. */
  predicate CanTell(s: St, token: string, a: Attempt) {
    token == s.cr.status.shareToken || (a.plan.remoteListed && !a.rival)
  }

  lemma MustGoChosen(s: St, token: string, a: Attempt)
    requires MustGo(s, token) && CanTell(s, token, a) && Equipped(a.plan)
    ensures var inv := DeletionInventory(s, a.plan);
            var claimed := ReservedName(s.cr.spec) != "" && a.plan.resourcesListed && a.rival;
            DeletionToken(s.cr, claimed, inv) == token && IsOurShareToken(s.cr, token, inv) && token != ""
  {
    hide TargetsEqual, AnyMatches;
    var inv, name := DeletionInventory(s, a.plan), ReservedName(s.cr.spec);
    if token != s.cr.status.shareToken {
      var r := RemoteByName(s.net.remote, name).value;
      var d := AgentByName(inv.agent, name);
      if d.Some? {
        var q :| q in s.net.remote && q.token == d.value.token && q.target == d.value.backendEndpoint
                 && q.frontendEndpoints == d.value.frontendEndpoints;
        assert q == r;
      }
    }
  }

  lemma IntactMustGo(s: St, t: St, token: string)
    requires MustGo(s, token) && Intact(s, t)
    ensures MustGo(t, token)
  {
    hide TargetsEqual, AnyMatches;
  }

  lemma ShareStage(s: St, token: string, inv: Inventory, p: Plan)
    requires Equipped(p) && token != "" && IsOurShareToken(s.cr, token, inv)
    ensures var r := DeleteShare(s, token, inv, p); ShareAccounted(s, r.s, token) || (r.Done? && Intact(s, r.s))
  {
    hide IsOurShareToken, Conditions.Apply, Cleared;
    if DeleteShare(s, token, inv, p).More? {
      DeletedShareAccounted(s, token, inv, p);
    } else if p.unshare == NoFault {
      var t := DeleteShare(s, token, inv, p).s;
      assert t.net.remote == WithoutRemote(s.net.remote, token);
      assert forall r :: r in t.net.remote ==> r.token != token;
    }
  }

  lemma AttemptAccounts(s: St, token: string, a: Attempt)
    requires MustGo(s, token) && CanTell(s, token, a) && Equipped(a.plan) && s.cr.finalizer
    ensures var t := ReconcileDelete(s, a.rival, a.plan).s;
            ShareAccounted(s, t, token) || (Intact(s, t) && t.cr.finalizer)
  {
    hide DeleteShare, DeleteName, DeletionToken, LoadInventory, ShareAccounted, IsOurShareToken, MustGo, AttachedHolder;
    hide CanTell;
    var p := a.plan;
    var inv := DeletionInventory(s, p);
    var claimed := ReservedName(s.cr.spec) != "" && p.resourcesListed && a.rival;
    MustGoChosen(s, token, a);
    ShareStage(s, token, inv, p);
    var unshared := DeleteShare(s, token, inv, p);
    if unshared.More? {
      DeleteNameFrame(unshared.s, claimed, inv, p);
      var t := ReconcileDelete(s, a.rival, p).s;
      assert t.net == DeleteName(unshared.s, claimed, inv, p).s.net;
      NameStageTakes(unshared.s, claimed, inv, p, t);
      StaysAccounted(s, unshared.s, t, token);
    }
  }

  lemma NameStageTakes(s: St, claimed: bool, inv: Inventory, p: Plan, t: St)
    requires t.net == DeleteName(s, claimed, inv, p).s.net && t.cr.spec == s.cr.spec
    ensures OnlyTakes(s, t)
  {
    hide DeleteName, IsOurShareToken, AttachedHolder;
    DeleteNameFrame(s, claimed, inv, p);
  }

  lemma {:induction false} RetriesAccount(s: St, token: string, attempts: seq<Attempt>)
    requires MustGo(s, token) && s.cr.finalizer
    requires forall i :: 0 <= i < |attempts| ==> Equipped(attempts[i].plan) && CanTell(s, token, attempts[i])
    ensures var t := Retry(s, attempts); ShareAccounted(s, t, token) || (Intact(s, t) && t.cr.finalizer)
  {
    hide ReconcileDelete, Equipped, ShareAccounted, MustGo;
    if attempts != [] {
      var earlier, last := attempts[..|attempts| - 1], attempts[|attempts| - 1];
      RetriesAccount(s, token, earlier);
      RetryTakes(s, earlier);
      var t, u := Retry(s, earlier), Retry(s, attempts);
      AttemptTakes(t, last.rival, last.plan);
      if ShareAccounted(s, t, token) {
        StaysAccounted(s, t, u, token);
      } else {
        IntactMustGo(s, t, token);
        AttemptAccounts(t, token, last);
        if ShareAccounted(t, u, token) {
          AccountedFrom(s, t, u, token);
        }
      }
    }
  }

  /** Attempt `k` is the one that drops the finalizer. */
  ghost predicate DropsAt(s: St, attempts: seq<Attempt>, k: nat) {
    k < |attempts| && Retry(s, attempts[..k]).cr.finalizer && !Retry(s, attempts[..k + 1]).cr.finalizer
  }

  /** Attempt `k` drops the finalizer, by itself accounts for the name, and is the last to do anything. */
  ghost predicate NameAccountedAt(s: St, attempts: seq<Attempt>, k: nat) {
    DropsAt(s, attempts, k) && Retry(s, attempts) == Retry(s, attempts[..k + 1])
    && Retry(s, attempts[..k]).cr.spec == s.cr.spec
    && NameAccounted(Retry(s, attempts[..k]), Retry(s, attempts[..k + 1]), attempts[k].rival,
                     DeletionInventory(Retry(s, attempts[..k]), attempts[k].plan))
  }

  lemma {:induction false} RetriesNameAccounted(s: St, attempts: seq<Attempt>)
    requires s.cr.finalizer && !Retry(s, attempts).cr.finalizer
    requires forall i :: 0 <= i < |attempts| ==> Equipped(attempts[i].plan)
    requires s.cr.spec.reclaimPolicy != Retain && ReservedName(s.cr.spec) != ""
    ensures exists k: nat :: NameAccountedAt(s, attempts, k)
  {
    hide ReconcileDelete, Equipped, NameAccounted, DeletionInventory;
    var n := |attempts| - 1;
    var earlier, last := attempts[..n], attempts[n];
    var t := Retry(s, earlier);
    assert attempts[..n + 1] == attempts;
    RetryTakes(s, earlier);
    if t.cr.finalizer {
      AttemptContract(t, last.rival, last.plan);
      assert NameAccountedAt(s, attempts, n);
    } else {
      RetriesNameAccounted(s, earlier);
      var k: nat :| NameAccountedAt(s, earlier, k);
      NothingToDo(t, last.rival, last.plan);
      assert earlier[..k] == attempts[..k] && earlier[..k + 1] == attempts[..k + 1] && earlier[k] == attempts[k];
      assert NameAccountedAt(s, attempts, k);
    }
  }

  /** However many attempts it takes and whatever else fails in them, by the time the finalizer is gone the share in
      status at the start is gone, or its unshare was refused; and under policy Delete the very attempt that dropped the
      finalizer accounted for the name. */
  lemma FinalizerContract(s: St, attempts: seq<Attempt>)
    requires s.cr.finalizer && !Retry(s, attempts).cr.finalizer
    requires forall i :: 0 <= i < |attempts| ==> Equipped(attempts[i].plan)
    ensures s.cr.status.shareToken != "" ==> ShareAccounted(s, Retry(s, attempts), s.cr.status.shareToken)
    ensures s.cr.spec.reclaimPolicy != Retain && ReservedName(s.cr.spec) != "" ==>
              exists k: nat :: NameAccountedAt(s, attempts, k)
  {
    hide Retry, Equipped, ShareAccounted, NameAccountedAt;
    if s.cr.status.shareToken != "" {
      RetriesAccount(s, s.cr.status.shareToken, attempts);
    }
    if s.cr.spec.reclaimPolicy != Retain && ReservedName(s.cr.spec) != "" {
      RetriesNameAccounted(s, attempts);
    }
  }

  /** With an empty status, when the remote lists are read and nobody else claims the name, the same goes for the share
      that holds the name with the desired target. */
  lemma HolderContract(s: St, attempts: seq<Attempt>, token: string)
    requires s.cr.finalizer && !Retry(s, attempts).cr.finalizer && s.cr.status.shareToken == "" && MustGo(s, token)
    requires forall i :: 0 <= i < |attempts| ==>
               Equipped(attempts[i].plan) && attempts[i].plan.remoteListed && !attempts[i].rival
    ensures ShareAccounted(s, Retry(s, attempts), token)
  {
    hide Retry, Equipped, ShareAccounted, MustGo;
    RetriesAccount(s, token, attempts);
  }

  // ----- it ends -----

  /** The calls that deletion depends on succeed. Whether the agent answers a release makes no difference. */
  predicate FaultFreeDeletion(p: Plan) {
    && Equipped(p) && p.remoteListed && p.agentAnswers && p.unshare == NoFault && p.clearLands && p.reclaim == NoFault
    && p.unshareAgain == NoFault && p.finalizerLands
  }

  /** The shares served under a name. */
  function HolderTokens(remote: seq<RemoteShare>, name: string): set<string> {
    set r | r in remote && AnyMatches(r.frontendEndpoints, name) :: r.token
  }

  lemma HoldersFall(remote: seq<RemoteShare>, fewer: seq<RemoteShare>, name: string)
    requires forall r :: r in fewer ==> r in remote
    ensures HolderTokens(fewer, name) <= HolderTokens(remote, name)
  {}

  lemma HolderGone(remote: seq<RemoteShare>, name: string)
    requires RemoteByName(remote, name).Some?
    ensures HolderTokens(WithoutRemote(remote, RemoteByName(remote, name).value.token), name)
            < HolderTokens(remote, name)
  {
    hide AnyMatches;
    var holder := RemoteByName(remote, name).value;
    HoldersFall(remote, WithoutRemote(remote, holder.token), name);
    assert holder.token in HolderTokens(remote, name);
  }

  lemma DeleteShareOk(s: St, token: string, inv: Inventory, p: Plan)
    requires FaultFreeDeletion(p)
    ensures var r := DeleteShare(s, token, inv, p);
            && r.More? && r.s.cr.finalizer == s.cr.finalizer && r.s.cr.spec == s.cr.spec
            && forall q :: q in r.s.net.remote ==> q in s.net.remote
  {
    hide IsOurShareToken, Conditions.Apply;
  }

  lemma DeleteNameOk(s: St, claimed: bool, inv: Inventory, p: Plan)
    requires FaultFreeDeletion(p) && inv.listed
    ensures var r, name := DeleteName(s, claimed, inv, p), ReservedName(s.cr.spec);
            && r.s.cr == s.cr
            && (r.Done? ==> HolderTokens(r.s.net.remote, name) < HolderTokens(s.net.remote, name))
            && (r.More? ==> r.s.net.remote == s.net.remote)
  {
    hide IsOurShareToken, NamespaceToken, AnyMatches, HolderTokens, RemoteByName;
    var holder := RemoteByName(s.net.remote, ReservedName(s.cr.spec));
    if holder.Some? {
      HolderGone(s.net.remote, ReservedName(s.cr.spec));
      OursIsNamed(s.cr, holder.value.token, inv);
    }
  }

  lemma OursIsNamed(c: ZrokShare, token: string, inv: Inventory)
    ensures IsOurShareToken(c, token, inv) ==> token != ""
  {}

  lemma DeletionStep(s: St, rival: bool, p: Plan)
    requires s.cr.finalizer && FaultFreeDeletion(p)
    ensures var t, name := ReconcileDelete(s, rival, p).s, ReservedName(s.cr.spec);
            && t.cr.spec == s.cr.spec
            && (t.cr.finalizer ==> HolderTokens(t.net.remote, name) < HolderTokens(s.net.remote, name))
  {
    hide DeleteShare, DeleteName, DeletionToken, HolderTokens;
    var inv := DeletionInventory(s, p);
    var claimed := ReservedName(s.cr.spec) != "" && p.resourcesListed && rival;
    var token := DeletionToken(s.cr, claimed, inv);
    DeleteShareOk(s, token, inv, p);
    var unshared := DeleteShare(s, token, inv, p).s;
    HoldersFall(s.net.remote, unshared.net.remote, ReservedName(s.cr.spec));
    DeleteNameOk(unshared, claimed, inv, p);
  }

  lemma {:induction false} DeletionProgress(s: St, attempts: seq<Attempt>)
    requires forall i :: 0 <= i < |attempts| ==> FaultFreeDeletion(attempts[i].plan)
    ensures var t, name := Retry(s, attempts), ReservedName(s.cr.spec);
            && t.cr.spec == s.cr.spec
            && (t.cr.finalizer ==>
                  |HolderTokens(t.net.remote, name)| + |attempts| <= |HolderTokens(s.net.remote, name)|)
  {
    hide ReconcileDelete, FaultFreeDeletion, HolderTokens;
    if attempts != [] {
      var earlier, last := attempts[..|attempts| - 1], attempts[|attempts| - 1];
      DeletionProgress(s, earlier);
      var t := Retry(s, earlier);
      if t.cr.finalizer {
        DeletionStep(t, last.rival, last.plan);
        Fewer(HolderTokens(Retry(s, attempts).net.remote, ReservedName(s.cr.spec)),
              HolderTokens(t.net.remote, ReservedName(s.cr.spec)));
      } else {
        NothingToDo(t, last.rival, last.plan);
      }
    }
  }

  lemma NothingToDo(s: St, rival: bool, p: Plan)
    requires !s.cr.finalizer
    ensures ReconcileDelete(s, rival, p).s == s
  {}

  lemma Fewer(a: set<string>, b: set<string>)
    ensures a < b ==> |a| < |b|
  {
    if a < b {
      assert b == a + (b - a) && b - a != {};
    }
  }

  /** Deletion ends: each attempt either drops the finalizer or takes down one of the shares served under the name. */
  lemma DeletionEnds(s: St, attempts: seq<Attempt>)
    requires forall i :: 0 <= i < |attempts| ==> FaultFreeDeletion(attempts[i].plan)
    requires |attempts| > |HolderTokens(s.net.remote, ReservedName(s.cr.spec))|
    ensures !Retry(s, attempts).cr.finalizer
  {
    DeletionProgress(s, attempts);
  }

  /** With at most one share under the name, two attempts are enough. */
  lemma TwoAttempts(s: St, first: Attempt, second: Attempt)
    requires FaultFreeDeletion(first.plan) && FaultFreeDeletion(second.plan)
    requires OneHolder(s.net.remote, ReservedName(s.cr.spec))
    ensures !Retry(s, [first, second]).cr.finalizer
  {
    hide Retry, FaultFreeDeletion, AnyMatches;
    var tokens := HolderTokens(s.net.remote, ReservedName(s.cr.spec));
    if tokens != {} {
      var token :| token in tokens;
      assert tokens == {token};
    }
    DeletionEnds(s, [first, second]);
  }
}
