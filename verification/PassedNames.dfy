/** Where the guarantees need their assumptions: names that pass between resources, and
    environments without identity. */
module PassedNames {
  import opened Options
  import Conditions
  import opened Convergence
  import opened Deletion
  import opened Digest
  import opened Inventory
  import opened ReleaseEvidence
  import opened ShareFrames
  import opened Shares
  import opened ShareSteps
  import opened Targets
  import opened Zrok

  /** The share in status is still listed but status names another one: nothing will ever take it down. */
  ghost predicate Abandoned(s: St, t: St) {
    Listed(t.net, s.cr.status.shareToken) && t.cr.status.shareToken != s.cr.status.shareToken
  }

  /** The agent has lost the share in status and serves another one under the wanted name. */
  predicate Displaced(s: St) {
    AgentByToken(s.net.agent, s.cr.status.shareToken).None? && AgentByName(s.net.agent, ReservedName(s.cr.spec)).Some?
  }

  /** A coherent world in which a fault-free reconcile gets past the names, and the share in status is listed. */
  ghost predicate Underway(s: St, p: Plan, auth: seq<string>) {
    && Fits(s, p, auth) && s.cr.finalizer && !InvalidSelection(s.cr.spec) && TokensIdentify(s.net) && AgentBacked(s.net)
    && OneHolder(s.net.remote, ReservedName(s.cr.spec))
    && !HeldByForeigner(s.cr, FullInventory(s.net)) && Names(s, p).More?
    && s.cr.status.shareToken != "" && Listed(s.net, s.cr.status.shareToken)
  }

  /** Even without faults a reconcile abandons the share in status, exactly when the agent has lost that share and
      serves another one under the wanted name, as happens when a name passes from one resource to another. */
  lemma AbandonedExactly(s: St, p: Plan, auth: seq<string>)
    requires Underway(s, p, auth)
    ensures Abandoned(s, Reconcile(s, false, p).s) <==> Displaced(s)
  {
    hide Reconcile, Names, TakeDown, Create, Classify, ApplyDigest, UpstreamBarred, HeldByForeigner, FullInventory;
    hide InvalidSelection, AdoptableAgentShare, MarkShareReady, FaultFree, Listed, TokensIdentify, AgentBacked;
    hide OneHolder;
    OnePass(s, p, auth);
    NamesFrame(s, p);
    LandsAndReleases(p, auth);
    var named := Names(s, p).s;
    var digest, cls := ApplyDigest(s.cr.spec, auth), Classify(s.cr, FullInventory(s.net));
    var adopted := AdoptableAgentShare(named.cr, cls, digest);
    if adopted.Some? {
      AdoptedFrom(s, named.cr, digest);
      MarkFrame(named, adopted.value.token, adopted.value.frontendEndpoints, digest, p);
      SameListed(s.net, named.net, s.cr.status.shareToken);
    } else if Displaced(s) {
      OtherTakenDown(s, named, digest, p, auth);
    } else {
      OwnTakenDown(s, named, digest, p, auth);
    }
  }

  lemma LandsAndReleases(p: Plan, auth: seq<string>)
    requires FaultFree(p, auth)
    ensures p.env.Env? && p.env.zid != "" && p.unshare == NoFault && p.clearLands && p.readyLands && p.digestLands
    ensures p.share == NoFault
  {}

  lemma AdoptedFrom(s: St, c: ZrokShare, digest: string)
    requires s.cr.status.shareToken != ""
    ensures var adopted := AdoptableAgentShare(c, Classify(s.cr, FullInventory(s.net)), digest);
            adopted.Some? ==> (adopted.value.token == s.cr.status.shareToken <==> !Displaced(s))
  {
    hide AgentShareMatchesSpec, ShareDigestDrifted, HeldByForeigner, MappedRemote, AnyMatches, IsAgentShareActive;
  }

  /** What is taken down is the share in status, unless it is displaced. */
  lemma TargetOf(s: St, c: ZrokShare)
    requires s.cr.status.shareToken != "" && Listed(s.net, s.cr.status.shareToken) && c.spec == s.cr.spec
    requires c.status == s.cr.status
    requires !HeldByForeigner(s.cr, FullInventory(s.net)) && TokensIdentify(s.net)
    ensures ReleaseTarget(c, Classify(s.cr, FullInventory(s.net)))
         == Some(if Displaced(s) then AgentByName(s.net.agent, ReservedName(s.cr.spec)).value.token
                 else s.cr.status.shareToken)
  {
    hide HeldByForeigner, TargetsEqual;
  }

  /** Without faults taking down a share makes it unlisted and clears the binding, even if the old name is not yet
      free. */
  lemma TakenDown(s: St, cls: Classified, token: string, p: Plan)
    requires p.env.Env? && p.env.zid != "" && p.unshare == NoFault && p.clearLands && token != ""
    requires ReleaseTarget(s.cr, cls) == Some(token)
    ensures var t := TakeDown(s, cls, p).s;
            t.net.remote == WithoutRemote(s.net.remote, token) && t.cr.status.shareToken == "" && t.cr.spec == s.cr.spec
  {
    hide ReleaseTarget, LiveFrontendName, ReclaimPreviousName, Conditions.Apply;
    var released := ReleaseAndClear(s, token, p);
    assert released.More?;
    ReclaimFrame(released.s, LiveFrontendName(s.cr, cls), s.cr.status.reservation == Reserved, p);
  }

  lemma OwnTakenDown(s: St, named: St, digest: string, p: Plan, auth: seq<string>)
    requires Underway(s, p, auth) && !Displaced(s) && named.net.remote == s.net.remote
    requires named.cr.spec == s.cr.spec && named.cr.status == s.cr.status && p.env.Env?
    ensures var down := TakeDown(named, Classify(s.cr, FullInventory(s.net)), p);
            !Abandoned(s, if down.Done? then down.s else Create(down.s, digest, p).s)
  {
    hide TakeDown, Create, Classify, ReleaseTarget, Names, HeldByForeigner, FaultFree, UpstreamBarred, Displaced;
    hide InvalidSelection;
    hide Listed, OneHolder, AgentBacked, TokensIdentify;
    LandsAndReleases(p, auth);
    TargetOf(s, named.cr);
    var cls := Classify(s.cr, FullInventory(s.net));
    TakenDown(named, cls, s.cr.status.shareToken, p);
    var down := TakeDown(named, cls, p).s;
    NotListed(s.net, down.net, s.cr.status.shareToken);
    NewIsOther(s, p, auth);
    CreateNotBack(down, digest, p, s.cr.status.shareToken);
  }

  lemma NewIsOther(s: St, p: Plan, auth: seq<string>)
    requires Fits(s, p, auth) && Listed(s.net, s.cr.status.shareToken)
    ensures p.newToken != s.cr.status.shareToken
  {}

  /** Creation brings a token back only as the new status. */
  lemma CreateNotBack(s: St, digest: string, p: Plan, token: string)
    requires p.env.Env? && p.readyLands && token != p.newToken && !Listed(s.net, token)
    ensures var t := Create(s, digest, p).s; Listed(t.net, token) ==> t.cr.status.shareToken == token
  {
    hide HandleShareConflict, MarkShareReady, Conditions.Apply, ConflictTarget, ConflictView, RemoteByName;
    hide RemoteByToken;
    hide ModeText, DesiredBackendMode;
    var shared := SharePublic(s.net, s.cr.id, s.cr.spec, p.share, p.newToken, p.newEndpoints);
    var private := SharePrivate(s.net, s.cr.id, s.cr.spec, p.share, p.newToken);
    MarkFrame(s.(net := shared.net), p.newToken, p.newEndpoints, digest, p);
    MarkFrame(s.(net := private.net), VanityOr(s.cr.spec, p.newToken), [], digest, p);
    ConflictFrame(s, digest, p);
  }

  lemma OtherTakenDown(s: St, named: St, digest: string, p: Plan, auth: seq<string>)
    requires Underway(s, p, auth) && Displaced(s) && named.net.remote == s.net.remote
    requires named.cr.spec == s.cr.spec && named.cr.status == s.cr.status && p.env.Env?
    ensures var down := TakeDown(named, Classify(s.cr, FullInventory(s.net)), p);
            Abandoned(s, if down.Done? then down.s else Create(down.s, digest, p).s)
  {
    hide TakeDown, Create, Classify, ReleaseTarget, Names, HeldByForeigner, FaultFree, UpstreamBarred, Displaced;
    hide InvalidSelection;
    hide Listed, OneHolder, AgentBacked, TokensIdentify;
    LandsAndReleases(p, auth);
    TargetOf(s, named.cr);
    var cls := Classify(s.cr, FullInventory(s.net));
    DisplacedBy(s);
    var other := AgentByName(s.net.agent, ReservedName(s.cr.spec)).value.token;
    TakenDown(named, cls, other, p);
    var down := TakeDown(named, cls, p).s;
    StillListed(s.net, down.net, other, s.cr.status.shareToken);
    NameNowFree(s, down);
    NewIsOther(s, p, auth);
    if TakeDown(named, cls, p).More? {
      PublicByName(s);
      CreatesBeside(down, digest, p, s.cr.status.shareToken);
    }
  }

  lemma DisplacedBy(s: St)
    requires Displaced(s) && TokensIdentify(s.net) && AgentBacked(s.net) && s.cr.status.shareToken != ""
    ensures AgentByName(s.net.agent, ReservedName(s.cr.spec)).Some?
    ensures var d := AgentByName(s.net.agent, ReservedName(s.cr.spec)).value;
            d.token != "" && d.token != s.cr.status.shareToken
  {
    hide AnyMatches;
  }

  lemma StillListed(before: Net, after: Net, gone: string, token: string)
    requires after.remote == WithoutRemote(before.remote, gone) && gone != token && Listed(before, token)
    ensures Listed(after, token)
  {
    var i :| 0 <= i < |before.remote| && before.remote[i].token == token;
    assert before.remote[i] in after.remote;
  }

  /** The displacing share was the only one under the name. */
  lemma NameNowFree(s: St, t: St)
    requires Displaced(s) && AgentBacked(s.net) && OneHolder(s.net.remote, ReservedName(s.cr.spec))
    requires t.cr.spec == s.cr.spec
    requires t.net.remote == WithoutRemote(s.net.remote, AgentByName(s.net.agent, ReservedName(s.cr.spec)).value.token)
    ensures RemoteByName(t.net.remote, ReservedName(t.cr.spec)).None?
  {
    hide AnyMatches;
    var d := AgentByName(s.net.agent, ReservedName(s.cr.spec)).value;
    var r :| r in s.net.remote && r.token == d.token && r.target == d.backendEndpoint
             && r.frontendEndpoints == d.frontendEndpoints;
    assert AnyMatches(r.frontendEndpoints, ReservedName(s.cr.spec));
  }

  lemma PublicByName(s: St)
    requires Displaced(s) && !InvalidSelection(s.cr.spec)
    ensures DesiredShareMode(s.cr.spec) != ShareMode.Private
  {
    hide AnyMatches;
  }

  lemma CreatesBeside(s: St, digest: string, p: Plan, token: string)
    requires p.env.Env? && p.readyLands && p.share == NoFault && token != p.newToken && Listed(s.net, token)
    requires DesiredShareMode(s.cr.spec) != ShareMode.Private
    requires RemoteByName(s.net.remote, ReservedName(s.cr.spec)).None?
    ensures var t := Create(s, digest, p).s; Listed(t.net, token) && t.cr.status.shareToken == p.newToken
  {
    hide MarkShareReady, HandleShareConflict, ModeText, DesiredBackendMode, RemoteByName;
    var net := AddShare(s.net, s.cr.id, s.cr.spec, Public, p.newToken, p.newEndpoints);
    assert Create(s, digest, p) == MarkShareReady(s.(net := net), p.newToken, p.newEndpoints, digest, p);
    MarkFrame(s.(net := net), p.newToken, p.newEndpoints, digest, p);
    var i :| 0 <= i < |s.net.remote| && s.net.remote[i].token == token;
    assert net.remote[i] == s.net.remote[i];
  }

  // ----- without an identity -----

  /** The reconcile gets as far as taking down an agent share that it found by name and that has another target. */
  predicate TakesBlindly(s: St, rival: bool, p: Plan) {
    && Admit(s, rival, p).More? && Names(s, p).More? && p.agentAnswers
    && AgentByToken(s.net.agent, s.cr.status.shareToken).None?
    && AgentByName(s.net.agent, ReservedName(s.cr.spec)).Some?
    && !TargetsEqual(AgentByName(s.net.agent, ReservedName(s.cr.spec)).value.backendEndpoint, s.cr.spec.upstream)
  }

  ghost predicate AllJustified(c: ZrokShare, remote: seq<RemoteShare>, log: seq<Event>, n: nat) {
    forall i :: n <= i < |log| && IsRelease(log[i]) ==> Justified(c, remote, log[i].token)
  }

  lemma AgentEvidence(s: St, d: ShareDetail)
    requires TokensIdentify(s.net) && AgentBacked(s.net) && d in s.net.agent
    requires AgentByToken(s.net.agent, s.cr.status.shareToken) == Some(d)
             || AgentByToken(s.net.agent, s.cr.status.shareToken).None?
    ensures d.token != ""
    ensures Justified(s.cr, s.net.remote, d.token)
       <==> AgentByToken(s.net.agent, s.cr.status.shareToken).Some?
            || TargetsEqual(d.backendEndpoint, s.cr.spec.upstream)
  {
    hide TargetsEqual, AnyMatches;
    var r :| r in s.net.remote && r.token == d.token && r.target == d.backendEndpoint
             && r.frontendEndpoints == d.frontendEndpoints;
  }

  /** Without the remote list nothing is known but the agent's share. */
  lemma BlindView(s: St, p: Plan, listed: bool, answers: bool)
    ensures var cls := Classify(s.cr, LoadInventory(s.net, "", listed, answers));
            && cls.remote.None? && !cls.foreignName
            && cls.agent == (if answers then MappedAgent(s.cr, FullInventory(s.net)) else None)
            && ReleaseTarget(s.cr, cls) == (if cls.agent.Some? then Some(cls.agent.value.token) else None)
  {
    hide TargetsEqual, AnyMatches;
  }

  lemma TakesDownLogged(s: St, cls: Classified, token: string, p: Plan)
    requires p.env.Env? && ReleaseTarget(s.cr, cls) == Some(token) && token != ""
    ensures s.net.log + [Released(token)] <= TakeDown(s, cls, p).s.net.log
  {
    hide ReleaseTarget, LiveFrontendName, ReclaimPreviousName, Conditions.Apply;
    var released := ReleaseAndClear(s, token, p);
    assert s.net.log + [Released(token)] <= released.s.net.log;
    if released.More? {
      ReclaimFrame(released.s, LiveFrontendName(s.cr, cls), s.cr.status.reservation == Reserved, p);
    }
  }

  lemma NoBlindConflict(s: St, p: Plan)
    requires p.env.Env? && p.env.zid == ""
    ensures CreateTargets(s, p) == {}
  {
    hide TargetsEqual, AnyMatches, SharePublic;
    BlindView(s, p, p.remoteListedAgain, p.agentAnswersAgain);
  }

  lemma NothingTaken(s: St, t: St)
    requires ReleasesOnly(t.net.log, |s.net.log|, {})
    ensures AllJustified(s.cr, s.net.remote, t.net.log, |s.net.log|)
  {}

  lemma OneTaken(s: St, log: seq<Event>, token: string)
    requires ReleasesOnly(log, |s.net.log|, {token})
    requires exists i :: |s.net.log| <= i < |log| && log[i] == Released(token)
    ensures AllJustified(s.cr, s.net.remote, log, |s.net.log|) <==> Justified(s.cr, s.net.remote, token)
  {
    hide Justified;
  }

  lemma BlindPass(s: St, digest: string, p: Plan)
    requires TokensIdentify(s.net) && AgentBacked(s.net) && p.env.Env? && p.env.zid == ""
    ensures AllJustified(s.cr, s.net.remote, Converge(s, digest, p).s.net.log, |s.net.log|)
       <==> !(Names(s, p).More? && p.agentAnswers
              && AgentByToken(s.net.agent, s.cr.status.shareToken).None?
              && AgentByName(s.net.agent, ReservedName(s.cr.spec)).Some?
              && !TargetsEqual(AgentByName(s.net.agent, ReservedName(s.cr.spec)).value.backendEndpoint,
                               s.cr.spec.upstream))
  {
    hide Classify, Survey, Names, TakeDown, Create, ReleaseTarget, CreateTargets, TargetsEqual, MarkShareReady;
    hide LoadInventory;
    hide AdoptableAgentShare, Justified, AllJustified, ReleasesOnly, AnyMatches;
    var cls := Classify(s.cr, LoadInventory(s.net, p.env.zid, p.remoteListed, p.agentAnswers));
    BlindView(s, p, p.remoteListed, p.agentAnswers);
    BlindSurvey(s, cls, digest, p);
    NamesFrame(s, p);
    var named := Names(s, p);
    if named.Done? {
      NothingTaken(s, named.s);
    } else {
      var adopted := AdoptableAgentShare(named.s.cr, cls, digest);
      PassReleases(s, digest, p);
      TakeDownFrame(named.s, cls, p);
      var down := TakeDown(named.s, cls, p);
      NoBlindConflict(down.s, p);
      SameTarget(s.cr, named.s.cr, cls);
      if adopted.Some? {
        MarkFrame(named.s, adopted.value.token, adopted.value.frontendEndpoints, digest, p);
        NothingTaken(s, named.s);
        AdoptedTarget(named.s.cr, cls, digest);
      } else if cls.agent.Some? {
        var d := cls.agent.value;
        AgentEvidence(s, d);
        TakesDownLogged(named.s, cls, d.token, p);
        CreateFrame(down.s, digest, p);
        ReleasedSoFar(s.net.log, named.s.net.log, Converge(s, digest, p).s.net.log, d.token);
        assert PassTargets(s, p) == {d.token};
        OneTaken(s, Converge(s, digest, p).s.net.log, d.token);
      } else {
        assert PassTargets(s, p) == {};
        NothingTaken(s, Converge(s, digest, p).s);
      }
    }
  }

  lemma ReleasedSoFar(first: seq<Event>, named: seq<Event>, end: seq<Event>, token: string)
    requires first <= named && named + [Released(token)] <= end
    ensures exists i :: |first| <= i < |end| && end[i] == Released(token)
  {
    assert end[|named|] == Released(token);
  }

  lemma BlindSurvey(s: St, cls: Classified, digest: string, p: Plan)
    requires p.env.Env? && p.env.zid == "" && !cls.foreignName
    ensures Survey(s, cls, digest, p) == More(s)
  {}

  lemma AdoptedTarget(c: ZrokShare, cls: Classified, digest: string)
    requires AdoptableAgentShare(c, cls, digest).Some?
    ensures cls.agent.Some? && TargetsEqual(cls.agent.value.backendEndpoint, c.spec.upstream)
  {
    hide TargetsEqual;
  }

  /** Without an environment identity the remote list is never asked for: every release a reconcile makes has
      evidence, unless it gets as far as an agent share that it finds only by name and that has another target. */
  lemma EvidenceWithoutIdentity(s: St, rival: bool, p: Plan)
    requires TokensIdentify(s.net) && AgentBacked(s.net) && p.env.Env? && p.env.zid == ""
    ensures AllJustified(s.cr, s.net.remote, Reconcile(s, rival, p).s.net.log, |s.net.log|)
            <==> !TakesBlindly(s, rival, p)
  {
    hide Admit, Converge, TargetsEqual, ApplyDigest, AllJustified, Names, AnyMatches;
    AdmitFrame(s, rival, p);
    var admitted := Admit(s, rival, p);
    if admitted.More? {
      BlindPass(s, ApplyDigest(s.cr.spec, p.basicAuth.value), p);
    } else {
      NoLog(s, admitted.s);
    }
  }

  lemma NoLog(s: St, t: St)
    requires t.net == s.net
    ensures AllJustified(s.cr, s.net.remote, t.net.log, |s.net.log|)
  {}
}
