/** Reconcile never takes down a share it has no evidence for. */
module ReleaseEvidence {
  import opened Options
  import opened Digest
  import opened Inventory
  import opened ShareFrames
  import opened Shares
  import opened ShareSteps
  import opened Targets
  import opened Zrok

  /** The agent serves shares the controller knows, under the same token, target and endpoints. */
  ghost predicate AgentBacked(net: Net) {
    forall d :: d in net.agent ==>
      exists r :: r in net.remote && r.token == d.token && r.target == d.backendEndpoint
                  && r.frontendEndpoints == d.frontendEndpoints
  }

  ghost predicate TokensIdentify(net: Net) {
    && (forall r :: r in net.remote ==> r.token != "")
    && (forall r, q :: r in net.remote && q in net.remote && r.token == q.token ==> r == q)
  }

  /** A created share is served by the agent and known to the controller. */
  lemma AddedBacked(net: Net, id: Id, spec: ShareSpec, mode: ShareMode, token: string, endpoints: seq<string>)
    requires AgentBacked(net)
    ensures AgentBacked(AddShare(net, id, spec, mode, token, endpoints))
  {
    hide DesiredBackendMode, ModeText;
    var after := AddShare(net, id, spec, mode, token, endpoints);
    var r := CreatedRemote(spec, mode, token, endpoints);
    assert r in after.remote;
    forall e | e in after.agent
      ensures exists q :: q in after.remote && q.token == e.token && q.target == e.backendEndpoint
                          && q.frontendEndpoints == e.frontendEndpoints
    {
      if e in net.agent {
        var q :| q in net.remote && q.token == e.token && q.target == e.backendEndpoint
                 && q.frontendEndpoints == e.frontendEndpoints;
        assert q in after.remote;
      }
    }
  }

  /** At most one share is served under `name`. */
  ghost predicate OneHolder(remote: seq<RemoteShare>, name: string) {
    forall r, q ::
      r in remote && q in remote && AnyMatches(r.frontendEndpoints, name) && AnyMatches(q.frontendEndpoints, name)
      ==> r == q
  }

  /** `token` is the one in status, or belongs to a listed share with the desired target. */
  ghost predicate Justified(c: ZrokShare, remote: seq<RemoteShare>, token: string) {
    || (token != "" && token == c.status.shareToken)
    || (exists r :: r in remote && r.token == token && TargetsEqual(r.target, c.spec.upstream))
  }

  lemma AgentJustified(c: ZrokShare, net: Net, inv: Inventory, d: ShareDetail)
    requires AgentBacked(net) && TokensIdentify(net) && OneHolder(net.remote, ReservedName(c.spec))
    requires inv.remote == net.remote && forall e :: e in inv.agent ==> e in net.agent
    requires !HeldByForeigner(c, inv) && MappedAgent(c, inv) == Some(d)
    ensures Justified(c, net.remote, d.token)
  {
    hide TargetsEqual;
    if AgentByToken(inv.agent, c.status.shareToken).None? {
      var name := ReservedName(c.spec);
      assert AgentByName(inv.agent, name) == Some(d) && d in net.agent;
      var r :| r in net.remote && r.token == d.token && r.target == d.backendEndpoint
               && r.frontendEndpoints == d.frontendEndpoints;
      assert AnyMatches(r.frontendEndpoints, name);
      assert RemoteByName(inv.remote, name) == Some(r);
    }
  }

  lemma TargetJustified(c: ZrokShare, net: Net, inv: Inventory)
    requires AgentBacked(net) && TokensIdentify(net) && OneHolder(net.remote, ReservedName(c.spec))
    requires inv.remote == net.remote && forall e :: e in inv.agent ==> e in net.agent
    requires !Classify(c, inv).foreignName
    ensures var target := ReleaseTarget(c, Classify(c, inv));
            target.Some? ==> Justified(c, net.remote, target.value)
  {
    hide TargetsEqual;
    var agent := MappedAgent(c, inv);
    if agent.Some? {
      AgentJustified(c, net, inv, agent.value);
    }
  }

  lemma Join(log1: seq<Event>, log2: seq<Event>, n: nat, good: set<string>, bad: set<string>)
    requires n <= |log1| && log1 <= log2 && ReleasesOnly(log1, n, good) && ReleasesOnly(log2, |log1|, bad)
    ensures ReleasesOnly(log2, n, good + bad)
  {
    assert forall i :: n <= i < |log1| ==> log2[i] == log1[i];
  }

  /** The share that creation may still take down: the holder found after a 409. */
  function CreateTargets(s: St, p: Plan): set<string>
    requires p.env.Env?
  {
    var shared := SharePublic(s.net, s.cr.id, s.cr.spec, p.share, p.newToken, p.newEndpoints);
    var second := ConflictTarget(s.cr, ConflictView(s, p));
    if shared.reply.Attached? && second.Some? then {second.value} else {}
  }

  /** The tokens that one pass from the inventory on may take down. */
  function PassTargets(s: St, p: Plan): set<string>
    requires p.env.Env?
  {
    var cls := Classify(s.cr, LoadInventory(s.net, p.env.zid, p.remoteListed, p.agentAnswers));
    var named := Names(s, p);
    var first := ReleaseTarget(named.s.cr, cls);
    (if first.Some? then {first.value} else {}) + CreateTargets(TakeDown(named.s, cls, p).s, p)
  }

  lemma CreateReleases(s: St, digest: string, p: Plan)
    requires p.env.Env?
    ensures s.net.log <= Create(s, digest, p).s.net.log
    ensures ReleasesOnly(Create(s, digest, p).s.net.log, |s.net.log|, CreateTargets(s, p))
  {
    hide HandleShareConflict, MarkShareReady, ConflictTarget, ConflictView;
    var shared := SharePublic(s.net, s.cr.id, s.cr.spec, p.share, p.newToken, p.newEndpoints);
    var private := SharePrivate(s.net, s.cr.id, s.cr.spec, p.share, p.newToken);
    var s1 := s.(net := shared.net);
    ConflictFrame(s1, digest, p);
    MarkFrame(s1, p.newToken, p.newEndpoints, digest, p);
    MarkFrame(s.(net := private.net), VanityOr(s.cr.spec, p.newToken), [], digest, p);
  }

  lemma PassReleases(s: St, digest: string, p: Plan)
    requires p.env.Env?
    ensures s.net.log <= Converge(s, digest, p).s.net.log
    ensures ReleasesOnly(Converge(s, digest, p).s.net.log, |s.net.log|, PassTargets(s, p))
  {
    hide Survey, Names, TakeDown, Create, MarkShareReady, Classify, AdoptableAgentShare, SharePublic, ConflictTarget;
    hide ConflictView;
    hide ReleaseTarget, CreateTargets;
    var cls := Classify(s.cr, LoadInventory(s.net, p.env.zid, p.remoteListed, p.agentAnswers));
    SurveyFrame(s, cls, digest, p);
    NamesFrame(s, p);
    var named := Names(s, p);
    var adopted := AdoptableAgentShare(named.s.cr, cls, digest);
    if adopted.Some? {
      MarkFrame(named.s, adopted.value.token, adopted.value.frontendEndpoints, digest, p);
    }
    TakeDownFrame(named.s, cls, p);
    var down := TakeDown(named.s, cls, p);
    CreateReleases(down.s, digest, p);
    var targets := PassTargets(s, p);
    assert ReleasesOnly(named.s.net.log, |s.net.log|, targets);
    assert ReleasesOnly(down.s.net.log, |named.s.net.log|, targets);
    Join(named.s.net.log, down.s.net.log, |s.net.log|, targets, targets);
    Join(down.s.net.log, Create(down.s, digest, p).s.net.log, |s.net.log|, targets, targets);
    assert targets + targets == targets;
  }

  lemma FirstJustified(s: St, p: Plan, first: string)
    requires AgentBacked(s.net) && TokensIdentify(s.net) && OneHolder(s.net.remote, ReservedName(s.cr.spec))
    requires p.env.Env? && p.env.zid != "" && p.remoteListed
    requires var cls := Classify(s.cr, LoadInventory(s.net, p.env.zid, p.remoteListed, p.agentAnswers));
             !cls.foreignName && ReleaseTarget(s.cr, cls) == Some(first)
    ensures Justified(s.cr, s.net.remote, first)
  {
    hide Classify, ReleaseTarget, TargetsEqual;
    TargetJustified(s.cr, s.net, LoadInventory(s.net, p.env.zid, p.remoteListed, p.agentAnswers));
  }

  lemma SecondJustified(s: St, p: Plan, token: string)
    requires p.env.Env? && token in CreateTargets(s, p)
    ensures Justified(s.cr, s.net.remote, token) && token != s.cr.status.shareToken ==>
              exists r :: r in s.net.remote && r.token == token && TargetsEqual(r.target, s.cr.spec.upstream)
    ensures Justified(s.cr, s.net.remote, token)
  {
    hide TargetsEqual;
    var view := ConflictView(s, p);
    assert view.remote.Some? && view.remote.value in s.net.remote;
  }

  /** Whatever Reconcile or its 409 handler releases or unshares is the share in status, or a listed share with the
      desired target: a holder with another target and another token is never touched. */
  lemma EvidenceForEveryRelease(s: St, rival: bool, p: Plan, i: nat)
    requires AgentBacked(s.net) && TokensIdentify(s.net) && OneHolder(s.net.remote, ReservedName(s.cr.spec))
    requires p.env.Env? ==> p.env.zid != ""
    requires var log := Reconcile(s, rival, p).s.net.log; |s.net.log| <= i < |log| && IsRelease(log[i])
    ensures Justified(s.cr, s.net.remote, Reconcile(s, rival, p).s.net.log[i].token)
  {
    hide Admit, Converge, Classify, Survey, Names, TakeDown, ReleaseTarget, CreateTargets, TargetsEqual, ApplyDigest;
    AdmitFrame(s, rival, p);
    var admitted := Admit(s, rival, p);
    if admitted.More? {
      var digest := ApplyDigest(s.cr.spec, p.basicAuth.value);
      PassEvidence(s, digest, p, i);
    }
  }

  lemma PassEvidence(s: St, digest: string, p: Plan, i: nat)
    requires AgentBacked(s.net) && TokensIdentify(s.net) && OneHolder(s.net.remote, ReservedName(s.cr.spec))
    requires p.env.Env? && p.env.zid != ""
    requires var log := Converge(s, digest, p).s.net.log; |s.net.log| <= i < |log| && IsRelease(log[i])
    ensures Justified(s.cr, s.net.remote, Converge(s, digest, p).s.net.log[i].token)
  {
    hide Classify, Survey, Names, TakeDown, Create, ReleaseTarget, CreateTargets, TargetsEqual, MarkShareReady;
    hide AdoptableAgentShare, Justified;
    var cls := Classify(s.cr, LoadInventory(s.net, p.env.zid, p.remoteListed, p.agentAnswers));
    SurveyFrame(s, cls, digest, p);
    PassReleases(s, digest, p);
    NamesFrame(s, p);
    var named := Names(s, p);
    var token := Converge(s, digest, p).s.net.log[i].token;
    if Survey(s, cls, digest, p).More? && named.More? {
      TakeDownFrame(named.s, cls, p);
      var down := TakeDown(named.s, cls, p);
      SameTarget(s.cr, named.s.cr, cls);
      if token in CreateTargets(down.s, p) {
        SecondJustified(down.s, p, token);
        JustifiedBefore(s.cr, down.s.cr, s.net.remote, down.s.net.remote, token);
      } else {
        FirstJustified(s, p, token);
      }
    }
  }

  lemma SameTarget(c: ZrokShare, d: ZrokShare, cls: Classified)
    requires c.spec == d.spec && c.status == d.status
    ensures ReleaseTarget(c, cls) == ReleaseTarget(d, cls)
  {
    hide TargetsEqual;
  }

  lemma JustifiedBefore(c: ZrokShare, d: ZrokShare, remote: seq<RemoteShare>, fewer: seq<RemoteShare>, token: string)
    requires c.spec == d.spec && (d.status.shareToken == c.status.shareToken || d.status.shareToken == "")
    requires forall r :: r in fewer ==> r in remote
    requires Justified(d, fewer, token)
    ensures Justified(c, remote, token)
  {
    hide TargetsEqual;
  }
}
