/** What each stage of a reconcile can and cannot change. */
module ShareFrames {
  import Conditions
  import Digest
  import opened Options
  import opened Inventory
  import opened Shares
  import opened ShareSteps
  import opened Targets
  import opened Zrok

  predicate SameResource(c: ZrokShare, d: ZrokShare) {
    c.id == d.id && c.spec == d.spec && c.generation == d.generation && c.deleting == d.deleting
  }

  predicate SameBinding(c: ZrokShare, d: ZrokShare) {
    && c.status.shareToken == d.status.shareToken && c.status.assignedURL == d.status.assignedURL
    && c.status.frontendEndpoints == d.status.frontendEndpoints && c.status.reservation == d.status.reservation
    && c.appliedDigest == d.appliedDigest
  }

  predicate IsRelease(e: Event) {
    e.Released? || e.Unshared?
  }

  /** From position `n` on, the log takes down only shares whose token is in `tokens`. */
  ghost predicate ReleasesOnly(log: seq<Event>, n: nat, tokens: set<string>) {
    forall i :: n <= i < |log| && IsRelease(log[i]) ==> log[i].token in tokens
  }

  lemma AdmitFrame(s: St, rival: bool, p: Plan)
    ensures var r := Admit(s, rival, p);
            && r.s.net == s.net && SameResource(s.cr, r.s.cr) && SameBinding(s.cr, r.s.cr)
            && r.s.cr.reclaimName == s.cr.reclaimName
            && (r.More? ==> r.s == s && p.env.Env? && p.env.ready && p.env.credential == Token && p.basicAuth.Some?
                            && (ReservedName(s.cr.spec) != "" ==> !rival) && !InvalidSelection(s.cr.spec)
                            && s.cr.finalizer)
  {
    hide UpstreamBarred, Conditions.Apply, InvalidSelection, NotReady, WaitingForEnvironment, EndNotReady;
    hide EndNameConflict;
    EndFrame(s, Conditions.Reason.InvalidSpec, "", p, Settled);
    EndFrame(s, Conditions.Reason.UpstreamNotAllowed, p.errText, p, Settled);
    EndFrame(s, Conditions.Reason.BackendModeNotAllowed, "", p, Settled);
    EndFrame(s, Conditions.Reason.EnvironmentMissing, p.errText, p, Requeued);
    EndFrame(s, Conditions.Reason.SecretError, p.errText, p, Errored);
    EndFrame(s, Conditions.Reason.BasicAuthError, p.errText, p, Errored);
    WaitingFrame(s, p);
  }

  lemma WaitingFrame(s: St, p: Plan)
    ensures var c := WaitingForEnvironment(s.cr, p.now);
            SameResource(s.cr, c) && SameBinding(s.cr, c) && c.reclaimName == s.cr.reclaimName
            && c.finalizer == s.cr.finalizer
  {
    hide Conditions.Apply;
  }

  lemma SameUpdates(c: ZrokShare, d: ZrokShare, now: int)
    requires c.spec == d.spec && c.generation == d.generation && c.status.conditions == d.status.conditions
    ensures ReadyConditions(c, now) == ReadyConditions(d, now)
  {}

  lemma MarkFrame(s: St, token: string, endpoints: seq<string>, digest: string, p: Plan)
    ensures var r := MarkShareReady(s, token, endpoints, digest, p);
            && r.Done? && r.s.net == s.net && SameResource(s.cr, r.s.cr)
            && r.s.cr.reclaimName == s.cr.reclaimName && r.s.cr.finalizer == s.cr.finalizer
            && r.s.cr.status.shareToken == (if p.readyLands then token else s.cr.status.shareToken)
  {}

  lemma FlushFrame(s: St, fault: Fault, lands: bool)
    ensures var r := FlushReclaimName(s, fault, lands);
            && r.s.net.remote == s.net.remote && r.s.net.agent == s.net.agent && r.s.net.owner == s.net.owner
            && r.s.net.taken == s.net.taken
            && s.net.log <= r.s.net.log && ReleasesOnly(r.s.net.log, |s.net.log|, {})
            && SameResource(s.cr, r.s.cr) && SameBinding(s.cr, r.s.cr) && r.s.cr.status == s.cr.status
            && r.s.cr.finalizer == s.cr.finalizer
            && (r.More? ==> r.s.cr.reclaimName == "")
  {
    hide ReservedName, NamespaceToken, DeleteReply;
  }

  lemma RefusedFrame(s: St, reply: Reply, p: Plan)
    ensures var r := NameRefused(s, reply, p);
            && r.Done? && r.s.net == s.net && SameResource(s.cr, r.s.cr) && SameBinding(s.cr, r.s.cr)
            && r.s.cr.reclaimName == s.cr.reclaimName && r.s.cr.finalizer == s.cr.finalizer
  {}

  lemma PromoteFrame(s: St, p: Plan)
    ensures var r := PromoteName(s, p);
            && r.s.net.remote == s.net.remote && r.s.net.agent == s.net.agent && r.s.net.owner == s.net.owner
            && r.s.net.taken == s.net.taken
            && s.net.log <= r.s.net.log && ReleasesOnly(r.s.net.log, |s.net.log|, {})
            && SameResource(s.cr, r.s.cr) && SameBinding(s.cr, r.s.cr)
            && r.s.cr.reclaimName == s.cr.reclaimName && r.s.cr.finalizer == s.cr.finalizer
            && (r.More? ==> r.s.cr == s.cr)
  {
    hide Conditions.Apply, ReservedName, NamespaceToken, NameRefused;
    var reserved := UpdateShareName(s.net, WantedKey(s.cr.spec), p.reserveName);
    var s1 := s.(net := reserved.net);
    RefusedFrame(s1, reserved.reply, p);
    RefusedFrame(Noted(s1, p.noteLands, NameNotReady(s1.cr, Conditions.Reason.ReserveError, p.errText, p.now)),
                 reserved.reply, p);
  }

  lemma EnsureFrame(s: St, p: Plan)
    ensures var r := EnsureReservedName(s, p);
            && r.s.net.remote == s.net.remote && r.s.net.agent == s.net.agent && r.s.net.owner == s.net.owner
            && r.s.net.taken == s.net.taken
            && s.net.log <= r.s.net.log && ReleasesOnly(r.s.net.log, |s.net.log|, {})
            && SameResource(s.cr, r.s.cr) && SameBinding(s.cr, r.s.cr)
            && r.s.cr.reclaimName == s.cr.reclaimName && r.s.cr.finalizer == s.cr.finalizer
            && (r.More? ==> r.s.cr == s.cr)
  {
    hide Conditions.Apply, ReservedName, NamespaceToken, NameRefused, PromoteName;
    var created := CreateShareName(s.net, WantedKey(s.cr.spec), p.createName);
    var s1 := s.(net := created.net);
    PromoteFrame(s1, p);
    RefusedFrame(Noted(s1, p.noteLands, NameNotReady(s1.cr, Conditions.Reason.NameError, p.errText, p.now)),
                 created.reply, p);
  }

  lemma NamesFrame(s: St, p: Plan)
    ensures var r := Names(s, p);
            && r.s.net.remote == s.net.remote && r.s.net.agent == s.net.agent && r.s.net.owner == s.net.owner
            && r.s.net.taken == s.net.taken
            && s.net.log <= r.s.net.log && ReleasesOnly(r.s.net.log, |s.net.log|, {})
            && SameResource(s.cr, r.s.cr) && SameBinding(s.cr, r.s.cr) && r.s.cr.finalizer == s.cr.finalizer
            && (r.More? ==> r.s.cr.reclaimName == "" && r.s.cr.status == s.cr.status)
  {
    EnsureFrame(s, p);
    var ensured := EnsureReservedName(s, p);
    if ensured.More? {
      FlushFrame(ensured.s, p.flush, p.flushLands);
    }
  }

  /** `net` with the share `token` gone as far as releasing and unsharing can be relied on. */
  ghost predicate TookDown(before: Net, after: Net, token: string) {
    && after.names == before.names && after.taken == before.taken && after.owner == before.owner
    && (after.remote == before.remote || after.remote == WithoutRemote(before.remote, token))
    && (forall d :: d in after.agent ==> d in before.agent)
    && (after.remote != before.remote ==> forall d :: d in after.agent ==> d.token != token)
    && before.log <= after.log && ReleasesOnly(after.log, |before.log|, {token})
  }

  lemma ReleaseFrame(net: Net, zid: string, token: string, answers: bool, fault: Fault)
    ensures var Answer(after, reply) := ReleaseOurs(net, zid, token, answers, fault);
            && TookDown(net, after, token)
            && (reply == Ok && zid != "" && token != "" ==>
                  after.remote == WithoutRemote(net.remote, token) && forall d :: d in after.agent ==> d.token != token)
            && (reply != Ok ==> after.remote == net.remote)
  {}

  lemma TakeDownFrame(s: St, cls: Classified, p: Plan)
    requires p.env.Env?
    ensures var r, target := TakeDown(s, cls, p), ReleaseTarget(s.cr, cls);
            && r.s.net.owner == s.net.owner && r.s.net.taken == s.net.taken
            && s.net.log <= r.s.net.log && SameResource(s.cr, r.s.cr) && r.s.cr.finalizer == s.cr.finalizer
            && r.s.cr.appliedDigest == s.cr.appliedDigest
            && (target.None? ==> r == More(s))
            && (target.Some? ==>
                  && ReleasesOnly(r.s.net.log, |s.net.log|, {target.value})
                  && (r.s.net.remote == s.net.remote || r.s.net.remote == WithoutRemote(s.net.remote, target.value))
                  && (forall d :: d in r.s.net.agent ==> d in s.net.agent)
                  && (r.s.net.remote != s.net.remote ==> forall d :: d in r.s.net.agent ==> d.token != target.value)
                  && (r.s.cr.status.shareToken == s.cr.status.shareToken || r.s.cr.status.shareToken == "")
                  && (r.s.cr.status.shareToken != s.cr.status.shareToken && p.env.zid != "" && target.value != "" ==>
                        r.s.net.remote == WithoutRemote(s.net.remote, target.value)))
            && (target.Some? && r.More? ==>
                  && r.s.cr.status.shareToken == "" && r.s.cr.status.assignedURL == ""
                  && (p.env.zid != "" && target.value != "" ==>
                        && r.s.net.remote == WithoutRemote(s.net.remote, target.value)
                        && forall d :: d in r.s.net.agent ==> d.token != target.value))
  {
    var target := ReleaseTarget(s.cr, cls);
    if target.Some? {
      ReleaseFrame(s.net, p.env.zid, target.value, p.releaseAnswers, p.unshare);
      var released := ReleaseAndClear(s, target.value, p);
      if released.More? {
        ReclaimFrame(released.s, LiveFrontendName(s.cr, cls), s.cr.status.reservation == Reserved, p);
      }
    }
  }

  lemma ReclaimFrame(s: St, oldName: string, wasReserved: bool, p: Plan)
    ensures var r := ReclaimPreviousName(s, oldName, wasReserved, p);
            && r.s.net.remote == s.net.remote && r.s.net.agent == s.net.agent && r.s.net.owner == s.net.owner
            && r.s.net.taken == s.net.taken
            && s.net.log <= r.s.net.log && ReleasesOnly(r.s.net.log, |s.net.log|, {})
            && SameResource(s.cr, r.s.cr) && r.s.cr.status == s.cr.status && r.s.cr.appliedDigest == s.cr.appliedDigest
            && r.s.cr.finalizer == s.cr.finalizer
  {
    if wasReserved && oldName != "" && oldName != ReservedName(s.cr.spec) && s.cr.spec.reclaimPolicy != Retain
       && (s.cr.reclaimName == oldName || p.recordLands) {
      var noted := St(s.cr.(reclaimName := oldName), s.net.(log := s.net.log + [RecordedReclaim(oldName)]));
      FlushFrame(noted, p.reclaim, p.reclaimLands);
    }
  }

  /** The conflict handler's inventory and verdict. */
  function ConflictView(s: St, p: Plan): Classified
    requires p.env.Env?
  {
    Classify(s.cr, LoadInventory(s.net, p.env.zid, p.remoteListedAgain, p.agentAnswersAgain))
  }

  lemma ConflictFrame(s: St, digest: string, p: Plan)
    requires p.env.Env?
    ensures var r, target := HandleShareConflict(s, digest, p), ConflictTarget(s.cr, ConflictView(s, p));
            && r.Done? && r.s.net.owner == s.net.owner && r.s.net.names == s.net.names && r.s.net.taken == s.net.taken
            && SameResource(s.cr, r.s.cr) && s.net.log <= r.s.net.log
            && r.s.cr.reclaimName == s.cr.reclaimName && r.s.cr.finalizer == s.cr.finalizer
            && (r.s.net == s.net || (target.Some? && ReleasesOnly(r.s.net.log, |s.net.log|, {target.value})
                                     && TookDown(s.net, r.s.net, target.value)))
            && (r.s.net == s.net || r.s.cr.status.shareToken == s.cr.status.shareToken)
            && (r.s.cr.status.shareToken != s.cr.status.shareToken ==>
                  ConflictView(s, p).agent.Some? && r.s.cr.status.shareToken == ConflictView(s, p).agent.value.token)
  {
    hide Conditions.Apply, TargetsEqual, Classify, LoadInventory, AgentShareMatchesSpec, ShareDigestDrifted;
    hide ReleaseHolder;
    hide MarkShareReady, NameNotReady, NotReady, TookDown, ReleasesOnly;
    var cls := ConflictView(s, p);
    var target := ConflictTarget(s.cr, cls);
    if target.Some? {
      HolderFrame(s, target.value, p);
    }
    if cls.agent.Some? {
      MarkFrame(s, cls.agent.value.token, cls.agent.value.frontendEndpoints, digest, p);
    }
    EndFrame(s, Conditions.Reason.InventoryError, p.errText, p, Errored);
    EndFrame(s, Conditions.Reason.ShareError, "", p, Requeued);
  }

  /** The reconcile ends without having touched anything but the conditions. */
  predicate EndsQuietly(s: St, r: Flow) {
    && r.Done? && r.s.net == s.net && SameResource(s.cr, r.s.cr) && SameBinding(s.cr, r.s.cr)
    && r.s.cr.reclaimName == s.cr.reclaimName && r.s.cr.finalizer == s.cr.finalizer
  }

  lemma EndFrame(s: St, reason: Conditions.Reason, message: string, p: Plan, verdict: Verdict)
    ensures EndsQuietly(s, EndNotReady(s, reason, message, p, verdict)) && EndsQuietly(s, EndNameConflict(s, p))
  {
    hide Conditions.Apply;
  }

  lemma HolderFrame(s: St, token: string, p: Plan)
    requires p.env.Env?
    ensures var r := ReleaseHolder(s, token, p);
            && r.Done? && r.s.net.owner == s.net.owner && r.s.net.names == s.net.names && r.s.net.taken == s.net.taken
            && SameResource(s.cr, r.s.cr) && SameBinding(s.cr, r.s.cr) && s.net.log <= r.s.net.log
            && r.s.cr.reclaimName == s.cr.reclaimName && r.s.cr.finalizer == s.cr.finalizer
            && ReleasesOnly(r.s.net.log, |s.net.log|, {token}) && TookDown(s.net, r.s.net, token)
  {
    hide Conditions.Apply;
    ReleaseFrame(s.net, p.env.zid, token, p.releaseAnswersAgain, p.unshareAgain);
  }

  lemma SurveyFrame(s: St, cls: Classified, digest: string, p: Plan)
    requires p.env.Env?
    ensures var r := Survey(s, cls, digest, p);
            && r.s.net == s.net && SameResource(s.cr, r.s.cr) && r.s.cr.finalizer == s.cr.finalizer
            && r.s.cr.reclaimName == s.cr.reclaimName
            && (r.More? ==> r.s == s && !cls.foreignName && (p.env.zid != "" ==> p.remoteListed))
  {
    hide MarkShareReady, EndNotReady, EndNameConflict, AdoptableAgentShare;
    var adopted := AdoptableAgentShare(s.cr, cls, digest);
    if adopted.Some? {
      MarkFrame(s, adopted.value.token, adopted.value.frontendEndpoints, digest, p);
    }
    EndFrame(s, Conditions.Reason.InventoryError, p.errText, p, Errored);
  }

  lemma CreateFrame(s: St, digest: string, p: Plan)
    requires p.env.Env?
    ensures var r := Create(s, digest, p);
            && r.Done? && SameResource(s.cr, r.s.cr) && r.s.cr.finalizer == s.cr.finalizer
            && r.s.cr.reclaimName == s.cr.reclaimName
            && r.s.net.names == s.net.names && r.s.net.taken == s.net.taken && s.net.log <= r.s.net.log
  {
    hide CreatePrivate, CreatePublic;
    CreatePrivateFrame(s, digest, p);
    CreatePublicFrame(s, digest, p);
  }

  lemma CreatePrivateFrame(s: St, digest: string, p: Plan)
    ensures var r := CreatePrivate(s, digest, p);
            && r.Done? && SameResource(s.cr, r.s.cr) && r.s.cr.finalizer == s.cr.finalizer
            && r.s.cr.reclaimName == s.cr.reclaimName
            && r.s.net.names == s.net.names && r.s.net.taken == s.net.taken && s.net.log <= r.s.net.log
  {
    hide MarkShareReady, EndNotReady, RemoteByToken, CreatedRemote, CreatedDetail;
    var private := SharePrivate(s.net, s.cr.id, s.cr.spec, p.share, p.newToken);
    MarkFrame(s.(net := private.net), VanityOr(s.cr.spec, p.newToken), [], digest, p);
    EndFrame(s, Conditions.Reason.ShareError, p.errText, p, Errored);
  }

  lemma CreatePublicFrame(s: St, digest: string, p: Plan)
    requires p.env.Env?
    ensures var r := CreatePublic(s, digest, p);
            && r.Done? && SameResource(s.cr, r.s.cr) && r.s.cr.finalizer == s.cr.finalizer
            && r.s.cr.reclaimName == s.cr.reclaimName
            && r.s.net.names == s.net.names && r.s.net.taken == s.net.taken && s.net.log <= r.s.net.log
  {
    hide HandleShareConflict, MarkShareReady, EndNotReady, ConflictTarget, ConflictView, RemoteByName, CreatedRemote;
    hide CreatedDetail;
    hide TookDown, ReleasesOnly;
    var shared := SharePublic(s.net, s.cr.id, s.cr.spec, p.share, p.newToken, p.newEndpoints);
    ConflictFrame(s, digest, p);
    MarkFrame(s.(net := shared.net), p.newToken, p.newEndpoints, digest, p);
    EndFrame(s, Conditions.Reason.ShareError, p.errText, p, Errored);
  }

  /** A reconcile changes neither the spec nor the identity of its resource. */
  lemma ReconcileFrame(s: St, rival: bool, p: Plan)
    ensures var r := Reconcile(s, rival, p); r.Done? && SameResource(s.cr, r.s.cr) && s.net.log <= r.s.net.log
    ensures s.cr.finalizer ==> Reconcile(s, rival, p).s.cr.finalizer
  {
    hide Admit, Survey, Names, TakeDown, Create, MarkShareReady, Classify, AdoptableAgentShare, ReleaseTarget;
    hide Digest.ApplyDigest;
    AdmitFrame(s, rival, p);
    AdmitEnds(s, rival, p);
    if Admit(s, rival, p).More? {
      var digest := Digest.ApplyDigest(s.cr.spec, p.basicAuth.value);
      var cls := Classify(s.cr, LoadInventory(s.net, p.env.zid, p.remoteListed, p.agentAnswers));
      SurveyFrame(s, cls, digest, p);
      SurveyEnds(s, cls, digest, p);
      NamesFrame(s, p);
      var named := Names(s, p);
      var adopted := AdoptableAgentShare(named.s.cr, cls, digest);
      if adopted.Some? {
        MarkFrame(named.s, adopted.value.token, adopted.value.frontendEndpoints, digest, p);
      }
      TakeDownFrame(named.s, cls, p);
      CreateFrame(TakeDown(named.s, cls, p).s, digest, p);
    }
  }

  lemma AdmitEnds(s: St, rival: bool, p: Plan)
    ensures s.cr.finalizer ==> Admit(s, rival, p).s.cr.finalizer
  {
    hide UpstreamBarred, Conditions.Apply;
  }

  lemma SurveyEnds(s: St, cls: Classified, digest: string, p: Plan)
    requires p.env.Env?
    ensures var r := Survey(s, cls, digest, p); r.More? || r.Done?
  {}

  // ----- deletion -----

  /** What deletion sees. */
  function DeletionInventory(s: St, p: Plan): Inventory {
    var env := ViewEnv(p.env);
    LoadInventory(s.net, env.zid, p.remoteListed, p.agentAnswers && env.reachable)
  }

  lemma DeleteShareFrame(s: St, token: string, inv: Inventory, p: Plan)
    ensures var r := DeleteShare(s, token, inv, p);
            && SameResource(s.cr, r.s.cr) && r.s.cr.finalizer == s.cr.finalizer
            && (r.s == s || (token != "" && IsOurShareToken(s.cr, token, inv) && TookDown(s.net, r.s.net, token)))
            && (r.s.cr.status.shareToken == s.cr.status.shareToken || r.s.cr.status.shareToken == "")
            && (!ViewEnv(p.env).reachable || token == "" || !IsOurShareToken(s.cr, token, inv) ==> r == More(s))
  {
    hide Conditions.Apply, IsOurShareToken;
    var env := ViewEnv(p.env);
    var released := ReleaseShare(s.net, token, p.releaseAnswers);
    assert TookDown(s.net, released, token);
    assert TookDown(s.net, Unshare(released, token, p.unshare).net, token);
  }

  lemma DeleteShareDone(s: St, token: string, inv: Inventory, p: Plan)
    requires ViewEnv(p.env).reachable && token != "" && IsOurShareToken(s.cr, token, inv)
    requires DeleteShare(s, token, inv, p).More?
    ensures var r, env := DeleteShare(s, token, inv, p), ViewEnv(p.env);
            && r.s.cr.status.shareToken == ""
            && (env.zid != "" && env.authorized && p.unshare != Denied ==>
                  r.s.net.remote == WithoutRemote(s.net.remote, token))
  {
    hide Conditions.Apply, IsOurShareToken;
  }

  /** The share that a refused deletion of the name points at. */
  function AttachedHolder(s: St, p: Plan): Option<string> {
    var reply := DeleteReply(s.net, WantedKey(s.cr.spec), p.reclaim);
    if reply.Attached? then Some(reply.token) else None
  }

  lemma DetachFrame(net: Net, env: EnvView, holder: string, p: Plan)
    ensures TookDown(net, DetachHolder(net, env, holder, p), holder)
  {}

  lemma DeleteNameFrame(s: St, claimed: bool, inv: Inventory, p: Plan)
    ensures var r, holder := DeleteName(s, claimed, inv, p), AttachedHolder(s, p);
            && r.s.cr == s.cr && r.s.net.owner == s.net.owner && r.s.net.taken == s.net.taken
            && s.net.log <= r.s.net.log
            && (forall d :: d in r.s.net.agent ==> d in s.net.agent)
            && (r.More? ==> r.s.net.remote == s.net.remote && r.s.net.agent == s.net.agent
                            && ReleasesOnly(r.s.net.log, |s.net.log|, {}))
            && (r.s.net.remote == s.net.remote
                || (holder.Some? && IsOurShareToken(s.cr, holder.value, inv)
                    && r.s.net.remote == WithoutRemote(s.net.remote, holder.value)
                    && forall d :: d in r.s.net.agent ==> d.token != holder.value))
            && (ReleasesOnly(r.s.net.log, |s.net.log|, {})
                || (holder.Some? && IsOurShareToken(s.cr, holder.value, inv)
                    && ReleasesOnly(r.s.net.log, |s.net.log|, {holder.value})))
  {
    hide IsOurShareToken, ReservedName, NamespaceToken, DetachHolder, DeleteReply;
    var holder := AttachedHolder(s, p);
    if holder.Some? {
      DetachFrame(DeleteShareName(s.net, WantedKey(s.cr.spec), p.reclaim).net, ViewEnv(p.env), holder.value, p);
    }
  }

  lemma DeleteFrame(s: St, rival: bool, p: Plan)
    ensures SameResource(s.cr, ReconcileDelete(s, rival, p).s.cr)
  {
    hide DeleteShare, DeleteName, DeletionToken, AttachedHolder, IsOurShareToken;
    var inv := DeletionInventory(s, p);
    var claimed := ReservedName(s.cr.spec) != "" && p.resourcesListed && rival;
    var token := DeletionToken(s.cr, claimed, inv);
    DeleteShareFrame(s, token, inv, p);
    DeleteNameFrame(DeleteShare(s, token, inv, p).s, claimed, inv, p);
  }
}
