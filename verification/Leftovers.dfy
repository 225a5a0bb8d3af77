/** What a deletion that goes through leaves behind, and exactly when. */
module Leftovers {
  import opened Options
  import Conditions
  import opened Deletion
  import opened Inventory
  import opened ReleaseEvidence
  import opened ShareFrames
  import opened Shares
  import opened ShareSteps
  import opened Targets
  import opened Zrok

  function Claimed(s: St, rival: bool, p: Plan): bool {
    ReservedName(s.cr.spec) != "" && p.resourcesListed && rival
  }

  predicate EnvironmentRead(p: Plan) {
    !p.env.EnvUnreadable? && !(p.env.Env? && p.env.credential == Unreadable)
  }

  // ----- the share -----

  /** Nobody takes the share down for good: there is no identity or no credential to do it with, or it is refused. */
  predicate NotUnshared(p: Plan) {
    ViewEnv(p.env).zid == "" || !ViewEnv(p.env).authorized || p.unshare == Denied
  }

  /** The name does not hold the deletion up: it is not to be deleted, it can be, or it is seen to
      be somebody else's. */
  predicate NameLetsGo(s: St, rival: bool, p: Plan) {
    var env, inv := ViewEnv(p.env), DeletionInventory(s, p);
    || !env.authorized || s.cr.spec.reclaimPolicy == Retain || ReservedName(s.cr.spec) == "" || Claimed(s, rival, p)
    || match DeleteReply(s.net, WantedKey(s.cr.spec), p.reclaim)
       case Ok => true
       case Unauthorized => true
       case Attached(holder) => NotOurs(s.cr.spec, holder, inv) && (env.zid == "" || inv.listed)
       case Failed => false
  }

  lemma UnboundOurs(c: ZrokShare, holder: string, inv: Inventory)
    requires c.status.shareToken == ""
    ensures IsOurShareToken(c, holder, inv) <==> !NotOurs(c.spec, holder, inv)
  {
    hide TargetsEqual;
  }

  /** The share stage for a bound resource, when the clearing patch lands. */
  lemma BoundShareStage(s: St, inv: Inventory, p: Plan)
    requires p.clearLands && s.cr.status.shareToken != ""
    ensures var token := s.cr.status.shareToken;
            var r := DeleteShare(s, token, inv, p);
            && (r.More? ==> r.s.cr == if p.env.Env? then Cleared(s.cr, p.now) else s.cr) && (r.Done? ==> r.s.cr == s.cr)
            && (NotUnshared(p) ==>
                  r.More? && r.s.net.remote == s.net.remote && r.s.net.names == s.net.names
                  && r.s.net.taken == s.net.taken)
            && (!NotUnshared(p) && r.More? ==> r.s.net.remote == WithoutRemote(s.net.remote, token))
  {
    hide Conditions.Apply, TargetsEqual;
  }

  lemma NameStage(s: St, t: St, rival: bool, p: Plan)
    requires t.cr == (if p.env.Env? then Cleared(s.cr, p.now) else s.cr) && s.cr.status.shareToken != ""
    requires t.net.remote == s.net.remote && t.net.names == s.net.names && t.net.taken == s.net.taken
    ensures DeleteName(t, Claimed(s, rival, p), DeletionInventory(s, p), p).More? <==> NameLetsGo(s, rival, p)
  {
    hide Conditions.Apply, NotOurs, IsOurShareToken, RemoteByName, DetachHolder, LoadInventory;
    var inv := DeletionInventory(s, p);
    assert t.cr.spec == s.cr.spec && (p.env.Env? ==> t.cr.status.shareToken == "");
    var reply := DeleteReply(s.net, WantedKey(s.cr.spec), p.reclaim);
    assert DeleteReply(t.net, WantedKey(s.cr.spec), p.reclaim) == reply;
    if reply.Attached? && p.env.Env? {
      UnboundOurs(t.cr, reply.token, inv);
    }
  }

  /** A deletion whose writes land finishes and leaves the bound share listed, with no resource to answer for it,
      exactly when nobody could take it down and the name did not hold the deletion up. */
  lemma ForgottenExactly(s: St, rival: bool, p: Plan)
    requires s.cr.finalizer && s.cr.status.shareToken != "" && Listed(s.net, s.cr.status.shareToken)
    requires p.clearLands && p.finalizerLands
    ensures var t := ReconcileDelete(s, rival, p).s;
            !t.cr.finalizer && Listed(t.net, s.cr.status.shareToken)
            <==> EnvironmentRead(p) && NotUnshared(p) && NameLetsGo(s, rival, p)
  {
    hide DeleteShare, DeleteName, DeletionToken, NotUnshared, NameLetsGo, Listed, LoadInventory, Conditions.Apply;
    hide Cleared;
    hide IsOurShareToken, AttachedHolder;
    var token, inv, claimed := s.cr.status.shareToken, DeletionInventory(s, p), Claimed(s, rival, p);
    if EnvironmentRead(p) {
      StatusDecides(s.cr, claimed, inv);
      BoundShareStage(s, inv, p);
      var unshared := DeleteShare(s, token, inv, p);
      DeleteNameFrame(unshared.s, claimed, inv, p);
      var unnamed := DeleteName(unshared.s, claimed, inv, p);
      ClearedFinalizer(s.cr, p.now);
      if unshared.More? && unnamed.More? {
        DropsFinalizer(unnamed.s, p);
        SameListed(unshared.s.net, unnamed.s.net, token);
        if NotUnshared(p) {
          SameListed(s.net, unshared.s.net, token);
          NameStage(s, unshared.s, rival, p);
        } else {
          NotListed(s.net, unshared.s.net, token);
        }
      } else if NotUnshared(p) {
        NameStage(s, unshared.s, rival, p);
      }
    }
  }

  lemma DropsFinalizer(s: St, p: Plan)
    requires p.finalizerLands
    ensures !DropFinalizer(s, p).s.cr.finalizer && DropFinalizer(s, p).s.net == s.net
  {}

  lemma ClearedFinalizer(c: ZrokShare, now: int)
    ensures Cleared(c, now).finalizer == c.finalizer
  {}

  /** For any deletion that goes through, under any policy, the guard alone decides. */
  lemma FinishedForgetsExactly(s: St, rival: bool, p: Plan)
    requires s.cr.finalizer && s.cr.status.shareToken != "" && Listed(s.net, s.cr.status.shareToken)
    requires p.clearLands && p.finalizerLands && !ReconcileDelete(s, rival, p).s.cr.finalizer
    ensures Listed(ReconcileDelete(s, rival, p).s.net, s.cr.status.shareToken)
       <==> ViewEnv(p.env).zid == "" || !ViewEnv(p.env).authorized || p.unshare == Denied
  {
    hide DeleteShare, DeleteName, DeletionToken, NotUnshared, Listed, LoadInventory, Conditions.Apply, Cleared;
    hide IsOurShareToken, AttachedHolder;
    var token, inv, claimed := s.cr.status.shareToken, DeletionInventory(s, p), Claimed(s, rival, p);
    StatusDecides(s.cr, claimed, inv);
    BoundShareStage(s, inv, p);
    var unshared := DeleteShare(s, token, inv, p);
    DeleteNameFrame(unshared.s, claimed, inv, p);
    var unnamed := DeleteName(unshared.s, claimed, inv, p);
    ClearedFinalizer(s.cr, p.now);
    DropsFinalizer(unnamed.s, p);
    SameListed(unshared.s.net, unnamed.s.net, token);
    Guard(p);
    if NotUnshared(p) {
      SameListed(s.net, unshared.s.net, token);
    } else {
      NotListed(s.net, unshared.s.net, token);
    }
  }

  lemma Guard(p: Plan)
    ensures NotUnshared(p) <==> ViewEnv(p.env).zid == "" || !ViewEnv(p.env).authorized || p.unshare == Denied
  {}

  // ----- one such deletion -----

  const PLAIN := ShareSpec("env", DefaultMode, "", "http://svc", None, "", false, false, [], None, None, DefaultPolicy)
  const BOUND :=
    ZrokShare(Id("ns", "web"), 1, true, true, "", "", PLAIN, ShareStatus(1, "", [], "t1", Reservation.Ephemeral, []))
  const SERVED := Net([RemoteShare("t1", "http://svc", "public", "proxy", [])], [], map[], {}, map[], [])

  /** Reads and writes succeed, and every call is answered as `fault` says. */
  function Answered(env: EnvRead, fault: Fault): Plan {
    Plan(0, "", false, env, Some([]), true, true, true, true, true, fault, fault, fault, true, true, fault, true, true,
         fault, true, fault, "t2", [], true, true, true, fault, true, true)
  }

  /** A deletion whose unshare is refused finishes all the same and leaves the share listed; so does one that finds no
      environment. */
  lemma ForgottenShares()
    ensures forall p :: p in {Answered(Env(true, "z", Token), Denied), Answered(EnvMissing, NoFault)} ==>
              var t := ReconcileDelete(St(BOUND, SERVED), false, p).s; !t.cr.finalizer && Listed(t.net, "t1")
  {
    hide ReconcileDelete;
    assert SERVED.remote[0].token == "t1";
    forall p | p in {Answered(Env(true, "z", Token), Denied), Answered(EnvMissing, NoFault)}
      ensures var t := ReconcileDelete(St(BOUND, SERVED), false, p).s; !t.cr.finalizer && Listed(t.net, "t1")
    {
      ForgottenExactly(St(BOUND, SERVED), false, p);
    }
  }

  // ----- the names -----

  /** The deletion takes down the share that `DeletionToken` picks. */
  predicate TakesShare(s: St, rival: bool, p: Plan) {
    var inv := DeletionInventory(s, p);
    var token := DeletionToken(s.cr, Claimed(s, rival, p), inv);
    !NotUnshared(p) && token != "" && IsOurShareToken(s.cr, token, inv)
  }

  /** No share but the one taken down is served under the name. */
  ghost predicate NameComesFree(s: St, rival: bool, p: Plan) {
    forall r :: r in s.net.remote && AnyMatches(r.frontendEndpoints, ReservedName(s.cr.spec)) ==>
      TakesShare(s, rival, p) && r.token == DeletionToken(s.cr, Claimed(s, rival, p), DeletionInventory(s, p))
  }

  /** The wanted name is given back. */
  ghost predicate GivesNameBack(s: St, rival: bool, p: Plan) {
    && ViewEnv(p.env).authorized && s.cr.spec.reclaimPolicy != Retain && ReservedName(s.cr.spec) != ""
    && !Claimed(s, rival, p)
    && p.reclaim == NoFault && WantedKey(s.cr.spec) !in s.net.taken && NameComesFree(s, rival, p)
  }

  lemma RemoteAfterShare(s: St, rival: bool, p: Plan)
    ensures var inv := DeletionInventory(s, p);
            var token := DeletionToken(s.cr, Claimed(s, rival, p), inv);
            var r := DeleteShare(s, token, inv, p);
            && r.s.net.names == s.net.names && r.s.net.taken == s.net.taken && r.s.cr.spec == s.cr.spec
            && r.s.cr.finalizer == s.cr.finalizer
            && (r.More? ==>
                  r.s.net.remote == if TakesShare(s, rival, p) then WithoutRemote(s.net.remote, token)
                  else s.net.remote)
  {
    hide Conditions.Apply, DeletionToken, IsOurShareToken, LoadInventory;
  }

  lemma NameFreeAfter(s: St, rival: bool, p: Plan, remote: seq<RemoteShare>)
    requires ReservedName(s.cr.spec) != ""
    requires remote == if TakesShare(s, rival, p)
                       then WithoutRemote(s.net.remote,
                                          DeletionToken(s.cr, Claimed(s, rival, p), DeletionInventory(s, p)))
                       else s.net.remote
    ensures RemoteByName(remote, ReservedName(s.cr.spec)).None? <==> NameComesFree(s, rival, p)
  {
    hide TakesShare, DeletionToken, AnyMatches, LoadInventory;
    if RemoteByName(remote, ReservedName(s.cr.spec)).None? {
      forall r | r in s.net.remote && AnyMatches(r.frontendEndpoints, ReservedName(s.cr.spec))
        ensures r !in remote
      {}
    }
  }

  lemma NamesAfterNameStage(s: St, claimed: bool, inv: Inventory, p: Plan)
    requires DeleteName(s, claimed, inv, p).More?
    ensures DeleteName(s, claimed, inv, p).s.net.names
         == if ViewEnv(p.env).authorized && s.cr.spec.reclaimPolicy != Retain && ReservedName(s.cr.spec) != ""
            && !claimed
               && DeleteReply(s.net, WantedKey(s.cr.spec), p.reclaim) == Ok
            then s.net.names - {WantedKey(s.cr.spec)} else s.net.names
    ensures DeleteName(s, claimed, inv, p).s.cr == s.cr
  {
    hide IsOurShareToken, DeleteReply, DetachHolder, ReservedName, NamespaceToken;
  }

  /** The names after a deletion that goes through: all but the wanted one, and that one unless it could be given
      back. The annotation with a name still to be reclaimed plays no part. */
  lemma NamesAfterDeletion(s: St, rival: bool, p: Plan)
    requires s.cr.finalizer && !ReconcileDelete(s, rival, p).s.cr.finalizer
    ensures ReconcileDelete(s, rival, p).s.net.names.Keys
         == s.net.names.Keys - (if GivesNameBack(s, rival, p) then {WantedKey(s.cr.spec)} else {})
  {
    hide DeleteShare, DeleteName, DeletionToken, TakesShare, NameComesFree, LoadInventory, IsOurShareToken;
    hide AttachedHolder;
    var inv, claimed := DeletionInventory(s, p), Claimed(s, rival, p);
    var token := DeletionToken(s.cr, claimed, inv);
    RemoteAfterShare(s, rival, p);
    var unshared := DeleteShare(s, token, inv, p);
    DeleteNameFrame(unshared.s, claimed, inv, p);
    var unnamed := DeleteName(unshared.s, claimed, inv, p);
    if unshared.More? && unnamed.More? {
      NamesAfterNameStage(unshared.s, claimed, inv, p);
      if ReservedName(s.cr.spec) != "" {
        NameFreeAfter(s, rival, p, unshared.s.net.remote);
        ReplyOk(unshared.s.net, WantedKey(s.cr.spec), p.reclaim);
      }
    }
  }

  lemma ReplyOk(net: Net, key: NameKey, fault: Fault)
    ensures DeleteReply(net, key, fault) == Ok
       <==> fault == NoFault && key !in net.taken && (key !in net.names || RemoteByName(net.remote, key.name).None?)
  {}

  /** A deleted resource leaves neither its name nor the one it still had to reclaim, exactly when the wanted name
      could be given back or was not there, and nothing else was left to reclaim. */
  lemma LeavesNoNameExactly(s: St, rival: bool, p: Plan, recorded: NameKey)
    requires s.cr.finalizer && !ReconcileDelete(s, rival, p).s.cr.finalizer && recorded.name == s.cr.reclaimName
    ensures var t := ReconcileDelete(s, rival, p).s;
            WantedKey(s.cr.spec) !in t.net.names && recorded !in t.net.names
            <==> (WantedKey(s.cr.spec) !in s.net.names || GivesNameBack(s, rival, p))
                 && (recorded !in s.net.names || recorded == WantedKey(s.cr.spec))
  {
    hide ReconcileDelete, GivesNameBack;
    NamesAfterDeletion(s, rival, p);
    var names := ReconcileDelete(s, rival, p).s.net.names;
    assert forall key :: key in names <==> key in names.Keys;
  }

  lemma NameStageKeepsOthers(s: St, claimed: bool, inv: Inventory, p: Plan, key: NameKey)
    requires key != WantedKey(s.cr.spec)
    ensures key in DeleteName(s, claimed, inv, p).s.net.names <==> key in s.net.names
  {
    hide IsOurShareToken, DeleteReply, ReservedName, NamespaceToken;
  }

  lemma AttemptKeepsOthers(s: St, rival: bool, p: Plan, key: NameKey)
    requires key != WantedKey(s.cr.spec)
    ensures key in ReconcileDelete(s, rival, p).s.net.names <==> key in s.net.names
    ensures ReconcileDelete(s, rival, p).s.cr.spec == s.cr.spec
  {
    hide LoadInventory, DeletionToken, DeleteShare, DeleteName, TakesShare, AttachedHolder, IsOurShareToken;
    hide ReservedName, NamespaceToken;
    var inv, claimed := DeletionInventory(s, p), Claimed(s, rival, p);
    RemoteAfterShare(s, rival, p);
    var unshared := DeleteShare(s, DeletionToken(s.cr, claimed, inv), inv, p);
    NameStageKeepsOthers(unshared.s, claimed, inv, p, key);
    DeleteNameFrame(unshared.s, claimed, inv, p);
  }

  /** Through all attempts of a deletion, a name recorded for reclaim stays reserved. */
  lemma {:induction false} RecordedNameStays(s: St, attempts: seq<Attempt>, recorded: NameKey)
    requires recorded.name == s.cr.reclaimName && recorded != WantedKey(s.cr.spec) && recorded in s.net.names
    ensures recorded in Retry(s, attempts).net.names && Retry(s, attempts).cr.spec == s.cr.spec
  {
    hide ReconcileDelete, ReservedName, NamespaceToken;
    if attempts != [] {
      var earlier, last := attempts[..|attempts| - 1], attempts[|attempts| - 1];
      RecordedNameStays(s, earlier, recorded);
      AttemptKeepsOthers(Retry(s, earlier), last.rival, last.plan, recorded);
    }
  }

  /** One deletion in which nothing fails, of a resource that still had the name "old" to reclaim: the resource
      goes, the name stays. */
  lemma OldNameOutlives()
    ensures var s := St(BOUND.(reclaimName := "old"), SERVED.(names := map[NameKey("public", "old") := true]));
            var t := Retry(s, [Attempt(false, Answered(Env(true, "z", Token), NoFault))]);
            !t.cr.finalizer && NameKey("public", "old") in t.net.names
  {
    hide Retry;
    var s := St(BOUND.(reclaimName := "old"), SERVED.(names := map[NameKey("public", "old") := true]));
    var attempts := [Attempt(false, Answered(Env(true, "z", Token), NoFault))];
    assert HolderTokens(s.net.remote, ReservedName(s.cr.spec)) == {};
    DeletionEnds(s, attempts);
    RecordedNameStays(s, attempts, NameKey("public", "old"));
  }

  // ----- a claimant nobody saw -----

  /** A resource on its way out that has no share of its own; `holder` is served under the name it claims. */
  ghost predicate UnboundClaimant(s: St, holder: RemoteShare) {
    && s.cr.finalizer && s.cr.status.shareToken == "" && s.cr.status.assignedURL == "" && ReservedName(s.cr.spec) != ""
    && TokensIdentify(s.net) && AgentBacked(s.net) && OneHolder(s.net.remote, ReservedName(s.cr.spec))
    && RemoteByName(s.net.remote, ReservedName(s.cr.spec)) == Some(holder)
  }

  /** Deletion takes the holder for a share of the resource: by its target or, with the remote list unread, because
      the agent serves it. */
  predicate Picks(s: St, holder: RemoteShare, p: Plan) {
    var inv := DeletionInventory(s, p);
    if inv.listed then TargetsEqual(holder.target, s.cr.spec.upstream)
       else AgentByName(inv.agent, ReservedName(s.cr.spec)).Some?
  }

  lemma PicksHolder(s: St, holder: RemoteShare, p: Plan)
    requires UnboundClaimant(s, holder)
    ensures var inv := DeletionInventory(s, p);
            var token := DeletionToken(s.cr, false, inv);
            if Picks(s, holder, p) then token == holder.token && token != "" && IsOurShareToken(s.cr, token, inv)
            else token == "" || !IsOurShareToken(s.cr, token, inv)
  {
    hide TargetsEqual, AnyMatches;
    var inv, name := DeletionInventory(s, p), ReservedName(s.cr.spec);
    var d := AgentByName(inv.agent, name);
    if d.Some? {
      var q :| q in s.net.remote && q.token == d.value.token && q.target == d.value.backendEndpoint
               && q.frontendEndpoints == d.value.frontendEndpoints;
      assert q == holder;
    }
  }

  lemma UnboundShareStage(s: St, token: string, inv: Inventory, p: Plan)
    requires s.cr.status.shareToken == "" && s.cr.status.assignedURL == "" && token != ""
    requires IsOurShareToken(s.cr, token, inv)
    ensures var env, r := ViewEnv(p.env), DeleteShare(s, token, inv, p);
            && r.s.cr == s.cr && r.s.net.names == s.net.names && r.s.net.taken == s.net.taken
            && (r.More? <==> env.zid == "" || !env.authorized || p.unshare == NoFault || p.unshare == Denied)
            && r.s.net.remote == if env.zid != "" && env.authorized && p.unshare == NoFault
                                 then WithoutRemote(s.net.remote, token) else s.net.remote
  {
    hide IsOurShareToken;
  }

  /** The name stage, as far as the share `token` goes. */
  lemma DetachesExactly(s: St, inv: Inventory, p: Plan, token: string)
    requires s.cr.status.shareToken == "" && ReservedName(s.cr.spec) != "" && Listed(s.net, token)
    ensures var env := ViewEnv(p.env);
            !Listed(DeleteName(s, false, inv, p).s.net, token)
            <==> env.authorized && env.zid != "" && s.cr.spec.reclaimPolicy != Retain && p.unshareAgain == NoFault
                 && DeleteReply(s.net, WantedKey(s.cr.spec), p.reclaim) == Attached(token)
                 && !NotOurs(s.cr.spec, token, inv)
  {
    hide IsOurShareToken, NotOurs, NamespaceToken, DeleteReply, Listed, DetachHolder;
    var reply := DeleteReply(s.net, WantedKey(s.cr.spec), p.reclaim);
    var t := DeleteName(s, false, inv, p).s;
    var asked := DeleteShareName(s.net, WantedKey(s.cr.spec), p.reclaim).net;
    SameListed(s.net, asked, token);
    EmptyNotOurs(s.cr.spec, inv);
    if reply.Attached? {
      UnboundOurs(s.cr, reply.token, inv);
    }
    if reply.Attached? && reply.token != "" {
      DetachedExactly(asked, ViewEnv(p.env), reply.token, p, token);
    }
  }

  lemma EmptyNotOurs(spec: ShareSpec, inv: Inventory)
    ensures NotOurs(spec, "", inv)
  {}

  lemma DetachedExactly(net: Net, env: EnvView, holder: string, p: Plan, token: string)
    requires holder != "" && Listed(net, token)
    ensures !Listed(DetachHolder(net, env, holder, p), token)
            <==> env.zid != "" && p.unshareAgain == NoFault && holder == token
  {
    var i :| 0 <= i < |net.remote| && net.remote[i].token == token;
    var after := DetachHolder(net, env, holder, p);
    if holder != token && env.zid != "" && p.unshareAgain == NoFault {
      assert net.remote[i] in after.remote;
      var j :| 0 <= j < |after.remote| && after.remote[j] == net.remote[i];
    }
  }

  /** When the list of resources cannot be read, deleting an unbound claimant takes the share under the name,
      whoever owns it, exactly when it takes it for its own and the unshare works; or, failing that, when the name
      cannot be deleted because of that very share, it looks like its own, and the unshare after that works. */
  lemma UnseenClaimantLosesShareExactly(s: St, holder: RemoteShare, rival: bool, p: Plan)
    requires UnboundClaimant(s, holder) && !p.resourcesListed
    ensures var env, inv := ViewEnv(p.env), DeletionInventory(s, p);
            !Listed(ReconcileDelete(s, rival, p).s.net, holder.token)
            <==> EnvironmentRead(p) && env.zid != "" && env.authorized
                 && if Picks(s, holder, p) && p.unshare != Denied then p.unshare == NoFault
                    else && s.cr.spec.reclaimPolicy != Retain && p.unshareAgain == NoFault
                         && DeleteReply(s.net, WantedKey(s.cr.spec), p.reclaim) == Attached(holder.token)
                         && !NotOurs(s.cr.spec, holder.token, inv)
  {
    hide DeleteShare, DeleteName, DeletionToken, LoadInventory, Picks, NotOurs, IsOurShareToken, DeleteReply, Listed;
    hide OneHolder;
    hide TokensIdentify, AgentBacked, AttachedHolder, NamespaceToken;
    var inv := DeletionInventory(s, p);
    var token := DeletionToken(s.cr, false, inv);
    PicksHolder(s, holder, p);
    HolderListed(s, holder);
    if Picks(s, holder, p) {
      UnboundShareStage(s, token, inv, p);
    } else {
      DeleteShareFrame(s, token, inv, p);
    }
    var unshared := DeleteShare(s, token, inv, p);
    if EnvironmentRead(p) {
      if unshared.s.net.remote == s.net.remote {
        SameListed(s.net, unshared.s.net, holder.token);
        SameReply(s.net, unshared.s.net, WantedKey(s.cr.spec), p.reclaim);
        DetachesExactly(unshared.s, inv, p, holder.token);
      } else {
        NotListed(s.net, unshared.s.net, holder.token);
        NameStageTakes(unshared.s, false, inv, p, DeleteName(unshared.s, false, inv, p).s) by {
          DeleteNameFrame(unshared.s, false, inv, p);
        }
        StaysUnlisted(unshared.s, DeleteName(unshared.s, false, inv, p).s, holder.token);
      }
      DropKeepsNet(DeleteName(unshared.s, false, inv, p).s, p);
      SameListed(DeleteName(unshared.s, false, inv, p).s.net,
                 DropFinalizer(DeleteName(unshared.s, false, inv, p).s, p).s.net, holder.token);
    }
  }

  lemma HolderListed(s: St, holder: RemoteShare)
    requires UnboundClaimant(s, holder)
    ensures Listed(s.net, holder.token)
  {
    hide AnyMatches, OneHolder, TokensIdentify, AgentBacked;
    var i :| 0 <= i < |s.net.remote| && s.net.remote[i] == holder;
  }

  lemma SameReply(before: Net, after: Net, key: NameKey, fault: Fault)
    requires after.remote == before.remote && after.names == before.names && after.taken == before.taken
    ensures DeleteReply(after, key, fault) == DeleteReply(before, key, fault)
  {}

  lemma StaysUnlisted(s: St, t: St, token: string)
    requires OnlyTakes(s, t) && !Listed(s.net, token)
    ensures !Listed(t.net, token)
  {
    forall i | 0 <= i < |t.net.remote|
      ensures t.net.remote[i].token != token
    {
      assert t.net.remote[i] in s.net.remote;
    }
  }

  lemma DropKeepsNet(s: St, p: Plan)
    ensures DropFinalizer(s, p).s.net == s.net
  {}

  /** And it gives the name away exactly when it takes that share first, and the name is ours to delete. */
  lemma UnseenClaimantLosesNameExactly(s: St, holder: RemoteShare, rival: bool, p: Plan)
    requires UnboundClaimant(s, holder) && !p.resourcesListed && WantedKey(s.cr.spec) in s.net.names
    ensures var env := ViewEnv(p.env);
            WantedKey(s.cr.spec) !in ReconcileDelete(s, rival, p).s.net.names
            <==> && EnvironmentRead(p) && env.zid != "" && env.authorized && s.cr.spec.reclaimPolicy != Retain
                 && Picks(s, holder, p) && p.unshare == NoFault && p.reclaim == NoFault
                 && WantedKey(s.cr.spec) !in s.net.taken
  {
    hide DeleteShare, DeleteName, DeletionToken, LoadInventory, Picks, NotOurs, IsOurShareToken, DeleteReply, Listed;
    hide OneHolder;
    hide TokensIdentify, AgentBacked, AttachedHolder, NamespaceToken, RemoteByName;
    var inv := DeletionInventory(s, p);
    var token := DeletionToken(s.cr, false, inv);
    PicksHolder(s, holder, p);
    if Picks(s, holder, p) {
      UnboundShareStage(s, token, inv, p);
      HolderAlone(s, holder);
    } else {
      DeleteShareFrame(s, token, inv, p);
    }
    var unshared := DeleteShare(s, token, inv, p);
    if EnvironmentRead(p) {
      ReplyOk(unshared.s.net, WantedKey(s.cr.spec), p.reclaim);
      NameDeletedExactly(unshared.s, inv, p);
      DropKeepsNet(DeleteName(unshared.s, false, inv, p).s, p);
    }
  }

  lemma HolderAlone(s: St, holder: RemoteShare)
    requires UnboundClaimant(s, holder)
    ensures RemoteByName(WithoutRemote(s.net.remote, holder.token), ReservedName(s.cr.spec)).None?
  {
    hide AnyMatches, TokensIdentify, AgentBacked;
  }

  lemma NameDeletedExactly(s: St, inv: Inventory, p: Plan)
    requires ReservedName(s.cr.spec) != "" && WantedKey(s.cr.spec) in s.net.names
    ensures WantedKey(s.cr.spec) !in DeleteName(s, false, inv, p).s.net.names
       <==> ViewEnv(p.env).authorized && s.cr.spec.reclaimPolicy != Retain
            && DeleteReply(s.net, WantedKey(s.cr.spec), p.reclaim) == Ok
  {
    hide IsOurShareToken, DeleteReply, NamespaceToken;
  }
}
