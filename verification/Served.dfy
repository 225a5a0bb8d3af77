/** What a share that reports Ready is, read off the spec, the agent and the controller alone: which running share
    is kept, which holder of the name is foreign, and what status says. */
module Served {
  import opened CallOrder
  import Conditions
  import opened Convergence
  import opened Deletion
  import opened Digest
  import opened Gates
  import opened Inventory
  import opened Options
  import opened ReleaseEvidence
  import opened ShareFrames
  import opened Shares
  import opened ShareSteps
  import opened Strings
  import opened Targets
  import Upstream
  import opened Zrok

  // ----- which running share will do -----

  function ModeName(mode: ShareMode): string {
    match mode
    case DefaultMode => "public"
    case Public => "public"
    case Private => "private"
    case OtherMode(text) => text
  }

  /** A running share of the agent is what the spec asks for; a mode that the agent does not report
      is taken on trust. */
  ghost predicate Matches(spec: ShareSpec, d: ShareDetail) {
    && d.status in ["", "active"]
    && spec.upstream != "" && d.backendEndpoint != "" && TargetsEqual(d.backendEndpoint, spec.upstream)
    && ToLower(d.shareMode) in ["", ToLower(ModeName(spec.shareMode))]
    && ToLower(d.backendMode) in ["", if spec.backendMode == "" then "proxy" else ToLower(spec.backendMode)]
    && d.closed == spec.closed && spec.privateShareToken in ["", d.token]
    && (Named(spec) ==> AnyMatches(d.frontendEndpoints, spec.nameSelection.value.name))
  }

  /** It can be kept: nothing was changed that the agent does not report, and a dropped name does not linger. */
  ghost predicate Keepable(c: ZrokShare, d: ShareDetail, digest: string) {
    && Matches(c.spec, d) && c.appliedDigest in ["", digest]
    && (!Named(c.spec) ==> c.status.reservation != Reserved)
  }

  lemma MatchesMeans(c: ZrokShare, d: ShareDetail)
    ensures AgentShareMatchesSpec(c, d) <==> Matches(c.spec, d) && (!Named(c.spec) ==> c.status.reservation != Reserved)
  {
    hide TargetsEqual, AnyMatches, ToLower;
    LowerEmpty(d.shareMode);
    LowerEmpty(d.backendMode);
    ProxyLower();
    assert ModeText(DesiredShareMode(c.spec)) == ModeName(c.spec.shareMode);
  }

  lemma LowerEmpty(text: string)
    ensures ToLower(text) == "" <==> text == ""
  {}

  lemma ProxyLower()
    ensures ToLower("proxy") == "proxy"
  {}

  lemma KeepableExactly(c: ZrokShare, cls: Classified, digest: string)
    ensures AdoptableAgentShare(c, cls, digest)
         == if cls.agent.Some? && Keepable(c, cls.agent.value, digest) then cls.agent else None
  {
    hide AgentShareMatchesSpec, Matches;
    if cls.agent.Some? {
      MatchesMeans(c, cls.agent.value);
    }
  }

  // ----- what status says -----

  /** Status speaks of the share `d` and of the spec as it is now. */
  ghost predicate Reports(c: ZrokShare, d: ShareDetail) {
    && c.status.observedGeneration == c.generation
    && c.status.shareToken == d.token && c.status.frontendEndpoints == d.frontendEndpoints
    && c.status.assignedURL == (if d.frontendEndpoints != [] then d.frontendEndpoints[0]
                                else if c.spec.shareMode == ShareMode.Private then d.token else "")
    && c.status.reservation == (if c.spec.shareMode == ShareMode.Private then Reservation.Private
                                else if Named(c.spec) then Reserved else Reservation.Ephemeral)
    && Conditions.ReasonOf(c.status.conditions, Conditions.Kind.NameReady)
       == (if c.spec.shareMode == ShareMode.Private then Conditions.Reason.Private
           else if Named(c.spec) then Conditions.Reason.NameReserved else Conditions.Reason.Ephemeral)
    && Conditions.ReasonOf(c.status.conditions, Conditions.Kind.ShareCreated) == Conditions.Reason.Created
    && Conditions.IsTrue(c.status.conditions, Conditions.Kind.NameReady)
    && Conditions.IsTrue(c.status.conditions, Conditions.Kind.EnvironmentReady)
    && Conditions.IsTrue(c.status.conditions, Conditions.Kind.ShareCreated)
    && Conditions.IsTrue(c.status.conditions, Conditions.Kind.Ready)
  }

  /** The four conditions as they stand once all of them are written. */
  lemma ReadyConditionsShow(c: ZrokShare, now: int, kind: Conditions.Kind)
    requires kind in {Conditions.Kind.NameReady, Conditions.Kind.EnvironmentReady, Conditions.Kind.ShareCreated,
                      Conditions.Kind.Ready}
    ensures Conditions.IsTrue(ReadyConditions(c, now), kind)
    ensures kind == Conditions.Kind.NameReady ==>
              Conditions.ReasonOf(ReadyConditions(c, now), kind) == NameReason(c.spec)
    ensures kind == Conditions.Kind.ShareCreated ==>
              Conditions.ReasonOf(ReadyConditions(c, now), kind) == Conditions.Reason.Created
  {
    hide Conditions.Apply, Conditions.Lookup, NameReason;
    var u, a := ReadyUpdates(c, now), c.status.conditions;
    var a1 := Conditions.Apply(a, u[0]);
    var a2 := Conditions.Apply(a1, u[1]);
    var a3 := Conditions.Apply(a2, u[2]);
    Conditions.ApplyLookup(a, u[0], kind);
    Conditions.ApplyLookup(a1, u[1], kind);
    Conditions.ApplyLookup(a2, u[2], kind);
    Conditions.ApplyLookup(a3, u[3], kind);
  }

  lemma MarkedReports(c: ZrokShare, d: ShareDetail, now: int)
    ensures Reports(Marked(c, d.token, d.frontendEndpoints, now), d)
  {
    hide ReadyConditions, Conditions.IsTrue, Conditions.ReasonOf;
    ReadyConditionsShow(c, now, Conditions.Kind.NameReady);
    ReadyConditionsShow(c, now, Conditions.Kind.EnvironmentReady);
    ReadyConditionsShow(c, now, Conditions.Kind.ShareCreated);
    ReadyConditionsShow(c, now, Conditions.Kind.Ready);
  }

  // ----- Ready is only ever written for a share that is served as asked for -----

  predicate ShowsReadyNow(c: ZrokShare) {
    Conditions.IsTrue(c.status.conditions, Conditions.Kind.Ready)
  }

  ghost predicate ServedAsAsked(t: St) {
    exists d :: d in t.net.agent && Reports(t.cr, d) && Matches(t.cr.spec, d)
  }

  /** From the status `before` on, `t` shows Ready only if nothing was written or the share is served as asked for. */
  ghost predicate Honest(before: ShareStatus, t: St) {
    ShowsReadyNow(t.cr) ==> t.cr.status == before || ServedAsAsked(t)
  }

  /** So far nothing was written, or Ready was taken back. */
  predicate Cautious(before: ShareStatus, t: St) {
    t.cr.status == before || !ShowsReadyNow(t.cr)
  }

  lemma NotReadyCautious(before: ShareStatus, s: St, reason: Conditions.Reason, message: string, p: Plan, v: Verdict)
    requires Cautious(before, s)
    ensures Cautious(before, EndNotReady(s, reason, message, p, v).s) && Cautious(before, EndNameConflict(s, p).s)
    ensures Cautious(before, Noted(s, p.noteLands, NameNotReady(s.cr, reason, message, p.now)))
  {
    hide NotReady, NameNotReady, Conditions.IsTrue;
    NotReadyTells(s.cr, reason, message, p.now);
    NameNotReadyTells(s.cr, reason, message, p.now);
    NameNotReadyTells(s.cr, Conditions.Reason.NameConflict, "", p.now);
  }

  lemma NameNotReadyTells(c: ZrokShare, reason: Conditions.Reason, message: string, now: int)
    ensures Tells(NameNotReady(c, reason, message, now), reason)
  {
    hide Conditions.Apply, NotReady, Tells;
    var unnamed := Conditions.Apply(c.status.conditions,
                                    Conditions.Update(Conditions.Kind.NameReady, Conditions.False, reason, message,
                                                      c.generation, now));
    NotReadyTells(c.(status := c.status.(conditions := unnamed)), reason, message, now);
  }

  lemma CautiousIsHonest(before: ShareStatus, t: St)
    requires Cautious(before, t)
    ensures Honest(before, t)
  {}

  lemma MarkHonest(before: ShareStatus, s: St, d: ShareDetail, digest: string, p: Plan)
    requires Cautious(before, s) && d in s.net.agent && Matches(s.cr.spec, d)
    ensures Honest(before, MarkShareReady(s, d.token, d.frontendEndpoints, digest, p).s)
  {
    hide Marked, Matches, Conditions.IsTrue;
    MarkedReports(s.cr, d, p.now);
    MarkedSpec(s.cr, d, p.now);
    var marked := Marked(s.cr, d.token, d.frontendEndpoints, p.now);
    SameStatusReports(marked, marked.(appliedDigest := digest), d);
  }

  lemma MarkedSpec(c: ZrokShare, d: ShareDetail, now: int)
    ensures Marked(c, d.token, d.frontendEndpoints, now).spec == c.spec
  {
    hide ReadyConditions;
  }

  lemma SameStatusReports(c: ZrokShare, e: ZrokShare, d: ShareDetail)
    requires Reports(c, d) && e.status == c.status && e.spec == c.spec && e.generation == c.generation
    ensures Reports(e, d)
  {}

  lemma TellsCautious(before: ShareStatus, t: St, reason: Conditions.Reason)
    requires Tells(t.cr, reason)
    ensures Cautious(before, t)
  {}

  lemma AdmitCautious(s: St, rival: bool, p: Plan)
    ensures Cautious(s.cr.status, Admit(s, rival, p).s)
  {
    hide UpstreamBarred, InvalidSelection, EndNotReady, AdmitEnvironment, Cautious;
    SameCautious(s);
    SameCautious(s.(cr := s.cr.(finalizer := true)));
    NotReadyCautious(s.cr.status, s, Conditions.Reason.InvalidSpec, "", p, Settled);
    NotReadyCautious(s.cr.status, s, Conditions.Reason.UpstreamNotAllowed, p.errText, p, Settled);
    NotReadyCautious(s.cr.status, s, Conditions.Reason.BackendModeNotAllowed, "", p, Settled);
    EnvironmentCautious(s, rival, p);
  }

  lemma EnvironmentCautious(s: St, rival: bool, p: Plan)
    ensures Cautious(s.cr.status, AdmitEnvironment(s, rival, p).s)
  {
    hide EndNotReady, EndNameConflict, ShareSteps.WaitingForEnvironment, Cautious, Tells;
    SameCautious(s);
    NotReadyCautious(s.cr.status, s, Conditions.Reason.EnvironmentMissing, p.errText, p, Requeued);
    NotReadyCautious(s.cr.status, s, Conditions.Reason.SecretError, p.errText, p, Errored);
    NotReadyCautious(s.cr.status, s, Conditions.Reason.BasicAuthError, p.errText, p, Errored);
    OthersTell(s.cr, "", p.now);
    TellsCautious(s.cr.status, s.(cr := WaitingForEnvironment(s.cr, p.now)), Conditions.Reason.WaitingForEnvironment);
  }

  lemma SurveyHonest(s: St, inv: Inventory, digest: string, p: Plan)
    requires p.env.Env? && forall d :: d in inv.agent ==> d in s.net.agent
    ensures Honest(s.cr.status, Survey(s, Classify(s.cr, inv), digest, p).s)
  {
    hide MarkShareReady, AdoptableAgentShare, Classify, Keepable, EndNotReady, EndNameConflict, Honest, Cautious;
    var cls := Classify(s.cr, inv);
    KeepableExactly(s.cr, cls, digest);
    SameCautious(s);
    CautiousIsHonest(s.cr.status, s);
    if AdoptableAgentShare(s.cr, cls, digest).Some? {
      MappedServed(s.cr, inv);
      KeepableMatches(s.cr, cls.agent.value, digest);
      MarkHonest(s.cr.status, s, cls.agent.value, digest, p);
    }
    NotReadyCautious(s.cr.status, s, Conditions.Reason.InventoryError, p.errText, p, Errored);
    CautiousIsHonest(s.cr.status, EndNotReady(s, Conditions.Reason.InventoryError, p.errText, p, Errored).s);
    CautiousIsHonest(s.cr.status, EndNameConflict(s, p).s);
  }

  lemma SameCautious(s: St)
    ensures Cautious(s.cr.status, s)
  {}

  lemma KeepableMatches(c: ZrokShare, d: ShareDetail, digest: string)
    ensures Keepable(c, d, digest) ==> Matches(c.spec, d)
  {}

  lemma MappedServed(c: ZrokShare, inv: Inventory)
    ensures Classify(c, inv).agent.Some? ==> Classify(c, inv).agent.value in inv.agent
  {
    hide TargetsEqual, AnyMatches, RemoteByName, RemoteByToken;
  }

  lemma EnsureCautious(s: St, p: Plan)
    ensures Cautious(s.cr.status, EnsureReservedName(s, p).s)
  {
    hide NameNotReady, PromoteName, Cautious, EndNameConflict, NamespaceToken, ReservedName;
    var s1 := s.(net := CreateShareName(s.net, WantedKey(s.cr.spec), p.createName).net);
    SameCautious(s);
    SameCautious(s1);
    NotReadyCautious(s.cr.status, s1, Conditions.Reason.NameError, p.errText, p, Errored);
    NotReadyCautious(s.cr.status,
                     Noted(s1, p.noteLands, NameNotReady(s1.cr, Conditions.Reason.NameError, p.errText, p.now)),
                     Conditions.Reason.NameError, p.errText, p, Errored);
    PromoteCautious(s1, p);
  }

  lemma PromoteCautious(s: St, p: Plan)
    ensures Cautious(s.cr.status, PromoteName(s, p).s)
  {
    hide NameNotReady, Cautious, EndNameConflict, NamespaceToken, ReservedName;
    var s1 := s.(net := UpdateShareName(s.net, WantedKey(s.cr.spec), p.reserveName).net);
    SameCautious(s);
    SameCautious(s1);
    var noted := Noted(s1, p.noteLands, NameNotReady(s1.cr, Conditions.Reason.ReserveError, p.errText, p.now));
    NotReadyCautious(s.cr.status, s1, Conditions.Reason.ReserveError, p.errText, p, Errored);
    NotReadyCautious(s.cr.status, noted, Conditions.Reason.ReserveError, p.errText, p, Errored);
  }

  lemma NamesCautious(s: St, p: Plan)
    ensures Cautious(s.cr.status, Names(s, p).s)
  {
    hide EnsureReservedName, FlushReclaimName, Conditions.IsTrue;
    EnsureCautious(s, p);
    EnsureFrame(s, p);
    FlushFrame(EnsureReservedName(s, p).s, p.flush, p.flushLands);
  }

  lemma ReleaseCautious(s: St, token: string, p: Plan)
    requires p.env.Env?
    ensures Cautious(s.cr.status, ReleaseAndClear(s, token, p).s)
  {
    hide ReleaseOurs, EndNotReady, Conditions.Apply, Conditions.Lookup;
    var s1 := s.(net := ReleaseOurs(s.net, p.env.zid, token, p.releaseAnswers, p.unshare).net);
    SameCautious(s1);
    NotReadyCautious(s.cr.status, s1, Conditions.Reason.HealError, p.errText, p, Errored);
    Conditions.ApplyLookup(s.cr.status.conditions,
                           Conditions.Update(Conditions.Kind.Ready, Conditions.False, Conditions.Reason.Healing, "",
                                             s.cr.generation, p.now), Conditions.Kind.Ready);
  }

  lemma TakeDownCautious(s: St, cls: Classified, p: Plan)
    requires p.env.Env?
    ensures Cautious(s.cr.status, TakeDown(s, cls, p).s)
  {
    hide ReleaseTarget, ReleaseAndClear, ReclaimPreviousName, LiveFrontendName, Conditions.IsTrue;
    var target := ReleaseTarget(s.cr, cls);
    if target.Some? {
      ReleaseCautious(s, target.value, p);
      var released := ReleaseAndClear(s, target.value, p);
      if released.More? {
        ReclaimFrame(released.s, LiveFrontendName(s.cr, cls), s.cr.status.reservation == Reserved, p);
      }
    }
  }

  lemma HolderCautious(before: ShareStatus, s: St, token: string, p: Plan)
    requires p.env.Env? && Cautious(before, s)
    ensures Cautious(before, ReleaseHolder(s, token, p).s)
  {
    hide ReleaseOurs, EndNotReady, Conditions.IsTrue;
    var s1 := s.(net := ReleaseOurs(s.net, p.env.zid, token, p.releaseAnswersAgain, p.unshareAgain).net);
    NotReadyCautious(before, s1, Conditions.Reason.HealError, p.errText, p, Errored);
  }

  lemma ConflictHonest(before: ShareStatus, s: St, digest: string, p: Plan)
    requires p.env.Env? && Cautious(before, s)
    ensures Honest(before, HandleShareConflict(s, digest, p).s)
  {
    hide Classify, AdoptableAgentShare, MarkShareReady, EndNotReady, EndNameConflict, ReleaseHolder, ConflictTarget;
    hide Honest, Cautious, Keepable, LoadInventory;
    var inv := LoadInventory(s.net, p.env.zid, p.remoteListedAgain, p.agentAnswersAgain);
    var cls := Classify(s.cr, inv);
    KeepableExactly(s.cr, cls, digest);
    if AdoptableAgentShare(s.cr, cls, digest).Some? {
      MappedServed(s.cr, inv);
      LoadedServed(s.net, p.env.zid, p.remoteListedAgain, p.agentAnswersAgain);
      KeepableMatches(s.cr, cls.agent.value, digest);
      MarkHonest(before, s, cls.agent.value, digest, p);
    }
    var target := ConflictTarget(s.cr, cls);
    if target.Some? {
      HolderCautious(before, s, target.value, p);
      CautiousIsHonest(before, ReleaseHolder(s, target.value, p).s);
    }
    NotReadyCautious(before, s, Conditions.Reason.InventoryError, p.errText, p, Errored);
    NotReadyCautious(before, s, Conditions.Reason.ShareError, "", p, Requeued);
    CautiousIsHonest(before, EndNotReady(s, Conditions.Reason.InventoryError, p.errText, p, Errored).s);
    CautiousIsHonest(before, EndNotReady(s, Conditions.Reason.ShareError, "", p, Requeued).s);
    CautiousIsHonest(before, EndNameConflict(s, p).s);
  }

  lemma LoadedServed(net: Net, zid: string, listed: bool, answers: bool)
    ensures forall d :: d in LoadInventory(net, zid, listed, answers).agent ==> d in net.agent
  {}

  lemma CreatedMatches(spec: ShareSpec, mode: ShareMode, token: string, endpoints: seq<string>)
    requires mode == DesiredShareMode(spec) && spec.upstream != "" && spec.privateShareToken in ["", token]
    requires Named(spec) ==> AnyMatches(endpoints, spec.nameSelection.value.name)
    ensures Matches(spec, CreatedDetail(spec, mode, token, endpoints))
  {
    hide TargetsEqual, AnyMatches, ToLower;
    SameTargets(spec.upstream);
    ProxyLower();
    assert ModeText(mode) == ModeName(spec.shareMode);
  }

  lemma AddedServed(s: St, mode: ShareMode, token: string, endpoints: seq<string>)
    ensures CreatedDetail(s.cr.spec, mode, token, endpoints)
            in AddShare(s.net, s.cr.id, s.cr.spec, mode, token, endpoints).agent
  {
    hide CreatedDetail, CreatedRemote;
  }

  lemma CreateHonest(before: ShareStatus, s: St, digest: string, p: Plan)
    requires p.env.Env? && Cautious(before, s) && s.cr.spec.upstream != "" && !Mismatched(s.cr.spec)
    requires !s.cr.spec.shareMode.OtherMode?
    requires Named(s.cr.spec) ==> AnyMatches(p.newEndpoints, s.cr.spec.nameSelection.value.name)
    ensures Honest(before, Create(s, digest, p).s)
  {
    hide HandleShareConflict, MarkShareReady, EndNotReady, Honest, Cautious, AddShare, Matches, RemoteByName;
    hide AnyMatches;
    hide RemoteByToken;
    var spec, id := s.cr.spec, s.cr.id;
    if DesiredShareMode(spec) == ShareMode.Private {
      var token := VanityOr(spec, p.newToken);
      var d := CreatedDetail(spec, ShareMode.Private, token, []);
      CreatedMatches(spec, ShareMode.Private, token, []);
      AddedServed(s, ShareMode.Private, token, []);
      CautiousAt(before, s, AddShare(s.net, id, spec, ShareMode.Private, token, []));
      MarkHonest(before, s.(net := AddShare(s.net, id, spec, ShareMode.Private, token, [])), d, digest, p);
    } else {
      var d := CreatedDetail(spec, Public, p.newToken, p.newEndpoints);
      CreatedMatches(spec, Public, p.newToken, p.newEndpoints);
      AddedServed(s, Public, p.newToken, p.newEndpoints);
      CautiousAt(before, s, AddShare(s.net, id, spec, Public, p.newToken, p.newEndpoints));
      MarkHonest(before, s.(net := AddShare(s.net, id, spec, Public, p.newToken, p.newEndpoints)), d, digest, p);
      ConflictHonest(before, s, digest, p);
    }
    NotReadyCautious(before, s, Conditions.Reason.ShareError, p.errText, p, Errored);
    CautiousIsHonest(before, EndNotReady(s, Conditions.Reason.ShareError, p.errText, p, Errored).s);
  }

  lemma CautiousAt(before: ShareStatus, s: St, net: Net)
    ensures Cautious(before, s) ==> Cautious(before, s.(net := net))
  {}

  /** Whatever fails, a reconcile that leaves the resource Ready either wrote no status at all, or reports, field by
      field, a share that the agent serves just as the spec asks for. The agent is taken to serve a new share under its
      name. */
  lemma ReadyMeansServed(s: St, rival: bool, p: Plan)
    requires s.cr.spec.upstream != "" && !s.cr.spec.shareMode.OtherMode?
    requires Named(s.cr.spec) ==> AnyMatches(p.newEndpoints, s.cr.spec.nameSelection.value.name)
    ensures Honest(s.cr.status, Reconcile(s, rival, p).s)
  {
    hide Admit, Survey, Names, TakeDown, Create, MarkShareReady, Classify, AdoptableAgentShare, ApplyDigest;
    hide LoadInventory, Honest, Cautious, AnyMatches, Keepable, Mismatched;
    AdmitFrame(s, rival, p);
    AdmitCautious(s, rival, p);
    CautiousIsHonest(s.cr.status, Admit(s, rival, p).s);
    if Admit(s, rival, p).More? {
      NotMismatched(s, rival, p);
      var digest := ApplyDigest(s.cr.spec, p.basicAuth.value);
      var inv := LoadInventory(s.net, p.env.zid, p.remoteListed, p.agentAnswers);
      var cls := Classify(s.cr, inv);
      LoadedServed(s.net, p.env.zid, p.remoteListed, p.agentAnswers);
      SurveyHonest(s, inv, digest, p);
      SurveyFrame(s, cls, digest, p);
      NamesCautious(s, p);
      NamesFrame(s, p);
      var named := Names(s, p);
      CautiousIsHonest(s.cr.status, named.s);
      KeepableExactly(named.s.cr, cls, digest);
      if AdoptableAgentShare(named.s.cr, cls, digest).Some? {
        MappedServed(s.cr, inv);
        KeepableMatches(named.s.cr, cls.agent.value, digest);
        MarkHonest(s.cr.status, named.s, cls.agent.value, digest, p);
      }
      TakeDownCautious(named.s, cls, p);
      TakeDownFrame(named.s, cls, p);
      var down := TakeDown(named.s, cls, p);
      CautiousOn(s, named.s, down.s);
      CautiousIsHonest(s.cr.status, down.s);
      if named.More? && down.More? {
        CreateHonest(s.cr.status, down.s, digest, p);
      }
    }
  }

  lemma CautiousOn(s: St, t: St, u: St)
    requires Cautious(s.cr.status, t) && Cautious(t.cr.status, u)
    ensures Cautious(s.cr.status, u)
  {}

  lemma NotMismatched(s: St, rival: bool, p: Plan)
    requires Admit(s, rival, p).More?
    ensures !Mismatched(s.cr.spec)
  {
    hide UpstreamBarred, NotReady, NameNotReady, ShareSteps.WaitingForEnvironment;
  }

  /** Converged is Ready, for a share served as asked for, under the digest of the spec and with the wanted name
      reserved. */
  lemma ConvergedIsServed(s: St, digest: string)
    requires Converged(s, digest)
    ensures ServedAsAsked(s) && s.cr.appliedDigest == digest && s.cr.reclaimName == ""
    ensures Named(s.cr.spec) ==> WantedKey(s.cr.spec) in s.net.names && s.net.names[WantedKey(s.cr.spec)]
  {
    hide AgentShareMatchesSpec, Matches, HeldByForeigner, Coherent, Marked, ReadyConditions, NamespaceToken;
    var d := AgentByToken(s.net.agent, s.cr.status.shareToken).value;
    MatchesMeans(s.cr, d);
    assert Marked(s.cr, d.token, d.frontendEndpoints, 0) == s.cr;
    MarkedReports(s.cr, d, 0);
  }

  // ----- which running share is kept -----

  /** A fault-free reconcile of a bound share that the agent serves leaves it alone, and reports it, exactly when it
      can be kept; otherwise the first thing it does to any share is to release that one. */
  lemma KeptExactly(s: St, p: Plan, auth: seq<string>, d: ShareDetail)
    requires Fits(s, p, auth) && s.cr.finalizer && Coherent(s) && PendingNameFree(s)
    requires !HeldByForeigner(s.cr, FullInventory(s.net))
    requires AgentByToken(s.net.agent, s.cr.status.shareToken) == Some(d)
    ensures var t := Reconcile(s, false, p).s;
            && (SharesUntouched(t.net.log, |s.net.log|) <==> Keepable(s.cr, d, ApplyDigest(s.cr.spec, auth)))
            && (SharesUntouched(t.net.log, |s.net.log|) ==>
                  t.net.remote == s.net.remote && t.net.agent == s.net.agent && Reports(t.cr, d))
  {
    hide Fits, HeldByForeigner, Names, TakeDown, Create, MarkShareReady, ApplyDigest, Keepable, AdoptableAgentShare;
    hide Reconcile, Coherent, PendingNameFree, MappedRemote, WantedKey, Reports;
    CoherentSelection(s);
    FitsMeans(s, p, auth);
    NamesOk(s, p);
    NamesStage(s, p);
    NamesFrame(s, p);
    OnePass(s, p, auth);
    var digest, cls, named := ApplyDigest(s.cr.spec, auth), Classify(s.cr, FullInventory(s.net)), Names(s, p).s;
    KeepableExactly(named.cr, cls, digest);
    SameKeepable(s.cr, named.cr, d, digest);
    if Keepable(s.cr, d, digest) {
      MarkedLog(named, digest, p);
      PatchReports(named, d, digest, p);
    } else {
      DownReleases(named, cls, p, d);
      TakeDownFrame(named, cls, p);
      var down := TakeDown(named, cls, p).s;
      CreateFrame(down, digest, p);
      assert Reconcile(s, false, p).s.net.log[|named.net.log|] == Released(d.token);
    }
  }

  lemma SameKeepable(c: ZrokShare, e: ZrokShare, d: ShareDetail, digest: string)
    requires e == c.(reclaimName := "")
    ensures Keepable(c, d, digest) == Keepable(e, d, digest)
  {}

  lemma DigestApart(c: ZrokShare, digest: string)
    ensures var e := c.(appliedDigest := digest);
            e.status == c.status && e.spec == c.spec && e.generation == c.generation
    ensures forall d :: Reports(c, d) ==> Reports(c.(appliedDigest := digest), d)
  {}

  lemma DownReleases(s: St, cls: Classified, p: Plan, d: ShareDetail)
    requires p.env.Env? && cls.agent == Some(d) && d.token != ""
    ensures var r := TakeDown(s, cls, p);
            |r.s.net.log| > |s.net.log| && r.s.net.log[|s.net.log|] == Released(d.token)
  {
    hide ReclaimPreviousName, LiveFrontendName, NotReady, Cleared;
    var released := ReleaseAndClear(s, d.token, p);
    assert released.s.net.log[|s.net.log|] == Released(d.token);
    if released.More? {
      ReclaimFrame(released.s, LiveFrontendName(s.cr, cls), s.cr.status.reservation == Reserved, p);
    }
  }

  // ----- which holder of the name is foreign -----

  /** Some share other than the one in status is served under the name for another target. */
  ghost predicate HeldForAnother(s: St, name: string) {
    exists r ::
      r in s.net.remote && AnyMatches(r.frontendEndpoints, name) && !TargetsEqual(r.target, s.cr.spec.upstream)
                && r.token != s.cr.status.shareToken
  }

  lemma ForeignMeans(s: St)
    requires Named(s.cr.spec) && OneHolder(s.net.remote, s.cr.spec.nameSelection.value.name)
    ensures HeldByForeigner(s.cr, FullInventory(s.net)) <==> HeldForAnother(s, s.cr.spec.nameSelection.value.name)
  {
    hide TargetsEqual, AnyMatches;
    assert ReservedName(s.cr.spec) == s.cr.spec.nameSelection.value.name;
  }

  /** A fault-free reconcile makes no call outside the cluster, and reports a name conflict, exactly when the wanted
      name is served by another share for another target; a share of its own that is to change its target is not in the
      way. */
  lemma ForeignExactly(s: St, p: Plan, auth: seq<string>)
    requires Fits(s, p, auth) && s.cr.finalizer && Coherent(s) && Named(s.cr.spec)
    ensures var t := Reconcile(s, false, p).s;
            && (t.net == s.net <==> HeldForAnother(s, s.cr.spec.nameSelection.value.name))
            && (t.net == s.net ==>
                  SameBinding(s.cr, t.cr) && (p.noteLands ==> Tells(t.cr, Conditions.Reason.NameConflict)))
  {
    hide Fits, HeldByForeigner, Coherent, HeldForAnother, EndNameConflict, OneHolder, SameBinding, Tells, Reconcile;
    CoherentHolder(s);
    ForeignMeans(s);
    ConflictTold(s, p);
    if HeldByForeigner(s.cr, FullInventory(s.net)) {
      ForeignEnds(s, p, auth);
    } else {
      OthersGoOn(s, p, auth);
    }
  }

  lemma ForeignEnds(s: St, p: Plan, auth: seq<string>)
    requires Fits(s, p, auth) && s.cr.finalizer && Coherent(s) && HeldByForeigner(s.cr, FullInventory(s.net))
    ensures Reconcile(s, false, p) == EndNameConflict(s, p)
  {
    hide Fits, HeldByForeigner, ApplyDigest, Admit, Coherent, MappedAgent, NameNotReady;
    CoherentSelection(s);
    FitsMeans(s, p, auth);
    FaultFreeMeans(p, auth);
    Convergence.Admitted(s, p, auth);
  }

  lemma OthersGoOn(s: St, p: Plan, auth: seq<string>)
    requires Fits(s, p, auth) && s.cr.finalizer && Coherent(s) && !HeldByForeigner(s.cr, FullInventory(s.net))
    requires Named(s.cr.spec)
    ensures |Reconcile(s, false, p).s.net.log| > |s.net.log|
  {
    hide Fits, HeldByForeigner, ApplyDigest, Admit, Coherent, MappedAgent, MappedRemote, Names, TakeDown, Create;
    hide MarkShareReady, AdoptableAgentShare, ReleaseTarget;
    CoherentSelection(s);
    FitsMeans(s, p, auth);
    FaultFreeMeans(p, auth);
    Convergence.Admitted(s, p, auth);
    var digest, cls := ApplyDigest(s.cr.spec, auth), Classify(s.cr, FullInventory(s.net));
    NamesLogged(s, p);
    NamesFrame(s, p);
    var named := Names(s, p).s;
    MarkedLog(named, digest, p);
    TakeDownFrame(named, cls, p);
    CreateFrame(TakeDown(named, cls, p).s, digest, p);
  }

  lemma CoherentHolder(s: St)
    requires Coherent(s) && Named(s.cr.spec)
    ensures OneHolder(s.net.remote, s.cr.spec.nameSelection.value.name)
  {
    hide OneHolder, TokensIdentify, AgentBacked, AgentTokens, InvalidSelection;
  }

  lemma FaultFreeMeans(p: Plan, auth: seq<string>)
    requires FaultFree(p, auth)
    ensures p.env.Env? && p.env.zid != "" && p.remoteListed && p.agentAnswers && p.basicAuth == Some(auth)
  {}

  lemma ConflictTold(s: St, p: Plan)
    ensures var t := EndNameConflict(s, p).s;
            t.net == s.net && SameBinding(s.cr, t.cr) && (p.noteLands ==> Tells(t.cr, Conditions.Reason.NameConflict))
  {
    hide Tells, Conditions.Apply;
    EndFrame(s, Conditions.Reason.NameConflict, "", p, Requeued);
    NameNotReadyTells(s.cr, Conditions.Reason.NameConflict, "", p.now);
  }

  lemma NamesLogged(s: St, p: Plan)
    requires Named(s.cr.spec)
    ensures |Names(s, p).s.net.log| > |s.net.log|
  {
    hide NameNotReady, FlushReclaimName, PromoteName, NamespaceToken;
    var s1 := s.(net := CreateShareName(s.net, WantedKey(s.cr.spec), p.createName).net);
    PromoteFrame(s1, p);
    RefusedLog(s1, CreateShareName(s.net, WantedKey(s.cr.spec), p.createName).reply, p);
    FlushFrame(EnsureReservedName(s, p).s, p.flush, p.flushLands);
  }

  // ----- while the controller cannot be asked -----

  /** When the list of shares fails nothing is called outside the cluster: a share that the agent still serves as
      asked for is reported Ready, and otherwise the failure, with the binding as it was. */
  lemma ListOutage(s: St, rival: bool, p: Plan)
    requires Gates.Admitted(s, rival, p) && Upstream.IsDNSLabel(ToLower(s.cr.id.namespace)) && p.env.zid != ""
    requires !p.remoteListed
    ensures var t := Reconcile(s, rival, p).s;
            var seen := Classify(s.cr, Inventory(false, [], if p.agentAnswers then s.net.agent else [])).agent;
            && t.net == s.net
            && (if seen.Some? && Keepable(s.cr, seen.value, ApplyDigest(s.cr.spec, p.basicAuth.value))
                then p.readyLands ==> Reports(t.cr, seen.value)
                else SameBinding(s.cr, t.cr) && (p.noteLands ==> Tells(t.cr, Conditions.Reason.InventoryError)))
  {
    hide Reconcile, Gates.Admitted, MarkShareReady, ApplyDigest, Keepable, EndNotReady, Reports, Tells, Converge;
    hide Upstream.IsDNSLabel, SameBinding, AdoptableAgentShare, MappedAgent, MappedRemote, HeldByForeigner;
    NothingLeavesUnlessAdmitted(s, rival, p);
    AdmittedMeans(s, rival, p);
    var digest := ApplyDigest(s.cr.spec, p.basicAuth.value);
    var cls := Classify(s.cr, LoadInventory(s.net, p.env.zid, p.remoteListed, p.agentAnswers));
    KeepableExactly(s.cr, cls, digest);
    OutageEnds(s, digest, p);
    OutageTold(s, p);
    if cls.agent.Some? {
      MarkedLog(s, digest, p);
      PatchReports(s, cls.agent.value, digest, p);
    }
  }

  lemma OutageEnds(s: St, digest: string, p: Plan)
    requires p.env.Env? && p.env.zid != "" && !p.remoteListed
    ensures var cls := Classify(s.cr, LoadInventory(s.net, p.env.zid, p.remoteListed, p.agentAnswers));
            var adopted := AdoptableAgentShare(s.cr, cls, digest);
            Converge(s, digest, p)
            == if adopted.Some?
               then MarkShareReady(s, adopted.value.token, adopted.value.frontendEndpoints, digest, p)
               else EndNotReady(s, Conditions.Reason.InventoryError, p.errText, p, Errored)
  {
    hide MarkShareReady, EndNotReady, AdoptableAgentShare, Classify, LoadInventory, Names, TakeDown, Create;
    MarkedLog(s, digest, p);
    MarkedDone(s, digest, p);
    EndFrame(s, Conditions.Reason.InventoryError, p.errText, p, Errored);
  }

  lemma MarkedDone(s: St, digest: string, p: Plan)
    ensures forall token, endpoints :: MarkShareReady(s, token, endpoints, digest, p).Done?
  {
    hide Marked;
  }

  lemma OutageTold(s: St, p: Plan)
    ensures var t := EndNotReady(s, Conditions.Reason.InventoryError, p.errText, p, Errored).s;
            t.net == s.net && SameBinding(s.cr, t.cr) && (p.noteLands ==> Tells(t.cr, Conditions.Reason.InventoryError))
  {
    hide NotReady, Tells;
    NotReadyTells(s.cr, Conditions.Reason.InventoryError, p.errText, p.now);
    EndFrame(s, Conditions.Reason.InventoryError, p.errText, p, Errored);
  }

  lemma PatchReports(s: St, d: ShareDetail, digest: string, p: Plan)
    ensures p.readyLands ==> Reports(MarkShareReady(s, d.token, d.frontendEndpoints, digest, p).s.cr, d)
  {
    hide Marked, Reports;
    MarkedReports(s.cr, d, p.now);
    DigestApart(Marked(s.cr, d.token, d.frontendEndpoints, p.now), digest);
  }

  /** So an outage of the controller never makes a converged share not Ready: it changes nothing at all. */
  lemma ConvergedSurvivesOutage(s: St, rival: bool, p: Plan)
    requires Gates.Admitted(s, rival, p) && Upstream.IsDNSLabel(ToLower(s.cr.id.namespace)) && p.env.zid != ""
    requires !p.remoteListed
    requires Converged(s, ApplyDigest(s.cr.spec, p.basicAuth.value)) && p.agentAnswers && p.readyLands
    ensures Reconcile(s, rival, p) == Done(s, Requeued)
  {
    hide Reconcile, Gates.Admitted, ApplyDigest, Coherent, HeldByForeigner, AgentShareMatchesSpec, Upstream.IsDNSLabel;
    hide Marked;
    hide MappedRemote;
    NothingLeavesUnlessAdmitted(s, rival, p);
    AdmittedMeans(s, rival, p);
    var digest := ApplyDigest(s.cr.spec, p.basicAuth.value);
    var d := AgentByToken(s.net.agent, s.cr.status.shareToken).value;
    var cls := Classify(s.cr, LoadInventory(s.net, p.env.zid, p.remoteListed, p.agentAnswers));
    SeenDirectly(s, p);
    assert AdoptableAgentShare(s.cr, cls, digest) == Some(d);
    assert Marked(s.cr, d.token, d.frontendEndpoints, p.now) == s.cr;
  }

  lemma SeenDirectly(s: St, p: Plan)
    requires p.env.Env? && !p.remoteListed && p.agentAnswers
    ensures Classify(s.cr, LoadInventory(s.net, p.env.zid, p.remoteListed, p.agentAnswers)).agent
         == OrElse(AgentByToken(s.net.agent, s.cr.status.shareToken),
                   AgentByName(s.net.agent, ReservedName(s.cr.spec)))
  {
    hide TargetsEqual, AnyMatches;
  }

  // ----- when the name is refused -----

  /** The wanted name is had exactly when it could be created, or was there, and reserved, and is no other
      account's. A name of another account is a conflict that waits for an edit; any other failure is reported with the
      call that failed. */
  lemma NameHadExactly(s: St, p: Plan)
    requires Named(s.cr.spec)
    ensures var r, key := EnsureReservedName(s, p), WantedKey(s.cr.spec);
            var refused := p.createName == Denied
                           || (p.createName != Broken
                               && (p.reserveName == Denied || (p.reserveName == NoFault && key in s.net.taken)));
            && (r.More? <==> && p.createName !in {Denied, Broken} && p.reserveName == NoFault && key !in s.net.taken
                             && (p.createName == NoFault || key in s.net.names))
            && (r.More? ==> key in r.s.net.names && r.s.net.names[key])
            && (r.Done? ==>
                  && SameBinding(s.cr, r.s.cr)
                  && r.verdict == (if refused then Requeued else Errored)
                  && (p.noteLands ==> Tells(r.s.cr, if refused then Conditions.Reason.NameConflict
                                                    else if p.createName == Broken then Conditions.Reason.NameError
                                                    else Conditions.Reason.ReserveError)))
  {
    hide NameNotReady, PromoteName, NamespaceToken, Tells, SameBinding;
    var created := CreateShareName(s.net, WantedKey(s.cr.spec), p.createName);
    var s1 := s.(net := created.net);
    var noted := Noted(s1, p.noteLands, NameNotReady(s1.cr, Conditions.Reason.NameError, p.errText, p.now));
    EnsureFrame(s, p);
    ConflictTold(noted, p);
    NameNotReadyTells(s1.cr, Conditions.Reason.NameError, p.errText, p.now);
    PromotedExactly(s1, p);
  }

  lemma PromotedExactly(s: St, p: Plan)
    ensures var r, key := PromoteName(s, p), WantedKey(s.cr.spec);
            var refused := p.reserveName == Denied || (p.reserveName == NoFault && key in s.net.taken);
            && (r.More? <==> p.reserveName == NoFault && key !in s.net.taken && key in s.net.names)
            && (r.More? ==> r.s.net.names == s.net.names[key := true])
            && (r.Done? ==>
                  && r.verdict == (if refused then Requeued else Errored)
                  && (p.noteLands ==> Tells(r.s.cr, if refused then Conditions.Reason.NameConflict
                                                    else Conditions.Reason.ReserveError)))
  {
    hide NameNotReady, NamespaceToken, ReservedName, Tells;
    var s1 := s.(net := UpdateShareName(s.net, WantedKey(s.cr.spec), p.reserveName).net);
    ConflictTold(s1, p);
    NameNotReadyTells(s1.cr, Conditions.Reason.ReserveError, p.errText, p.now);
  }

  // ----- when creation is refused -----

  /** What the handler of a refused creation does, in this order: nothing while the list fails; nothing while the
      name is served by another share for another target; report a running share that can be kept; release the share
      that has the desired target, agent first; otherwise wait. */
  lemma ConflictDecides(s: St, digest: string, p: Plan)
    requires p.env.Env? && OneHolder(s.net.remote, ReservedName(s.cr.spec)) && Named(s.cr.spec)
    ensures var r, zid := HandleShareConflict(s, digest, p), p.env.zid;
            var seen := ConflictView(s, p);
            if zid != "" && !p.remoteListedAgain
            then r.s.net == s.net && (p.noteLands ==> Tells(r.s.cr, Conditions.Reason.InventoryError))
            else if zid != "" && HeldForAnother(s, s.cr.spec.nameSelection.value.name)
            then r.s.net == s.net && (p.noteLands ==> Tells(r.s.cr, Conditions.Reason.NameConflict))
            else if seen.agent.Some? && Keepable(s.cr, seen.agent.value, digest)
            then r.s.net == s.net && (p.readyLands ==> Reports(r.s.cr, seen.agent.value))
            else if seen.remote.Some? && TargetsEqual(seen.remote.value.target, s.cr.spec.upstream)
            then r.s.net == ReleaseOurs(s.net, zid, seen.remote.value.token, p.releaseAnswersAgain, p.unshareAgain).net
                 && (zid != "" && p.unshareAgain != NoFault && p.noteLands && seen.remote.value.token != "" ==>
                       Tells(r.s.cr, Conditions.Reason.HealError))
            else r.s.net == s.net && (p.noteLands ==> Tells(r.s.cr, Conditions.Reason.ShareError))
  {
    hide MarkShareReady, EndNotReady, EndNameConflict, Keepable, AdoptableAgentShare, Tells, Reports, HeldForAnother;
    hide MappedAgent, MappedRemote, HeldByForeigner, ReleaseHolder, LoadInventory, OneHolder, TargetsEqual;
    var seen := ConflictView(s, p);
    KeepableExactly(s.cr, seen, digest);
    if seen.agent.Some? {
      MarkedLog(s, digest, p);
      PatchReports(s, seen.agent.value, digest, p);
    }
    EndTold(s, Conditions.Reason.InventoryError, p.errText, p, Errored);
    EndTold(s, Conditions.Reason.ShareError, "", p, Requeued);
    ConflictTold(s, p);
    if p.env.zid == "" || p.remoteListedAgain {
      ForeignSeen(s, p);
    }
    if seen.remote.Some? {
      HolderTold(s, seen.remote.value.token, p);
    }
  }

  lemma EndTold(s: St, reason: Conditions.Reason, message: string, p: Plan, v: Verdict)
    ensures var t := EndNotReady(s, reason, message, p, v).s; t.net == s.net && (p.noteLands ==> Tells(t.cr, reason))
  {
    hide NotReady, Tells;
    NotReadyTells(s.cr, reason, message, p.now);
  }

  lemma HolderTold(s: St, token: string, p: Plan)
    requires p.env.Env?
    ensures var t := ReleaseHolder(s, token, p).s;
            && t.net == ReleaseOurs(s.net, p.env.zid, token, p.releaseAnswersAgain, p.unshareAgain).net
            && (p.env.zid != "" && token != "" && p.unshareAgain != NoFault && p.noteLands ==>
                  Tells(t.cr, Conditions.Reason.HealError))
  {
    hide EndNotReady, Tells;
    EndTold(s.(net := ReleaseOurs(s.net, p.env.zid, token, p.releaseAnswersAgain, p.unshareAgain).net),
            Conditions.Reason.HealError, p.errText, p, Errored);
  }

  lemma ForeignSeen(s: St, p: Plan)
    requires p.env.Env? && OneHolder(s.net.remote, ReservedName(s.cr.spec)) && Named(s.cr.spec)
    requires p.env.zid != "" ==> p.remoteListedAgain
    ensures ConflictView(s, p).foreignName
       <==> p.env.zid != "" && HeldForAnother(s, s.cr.spec.nameSelection.value.name)
  {
    hide HeldForAnother, OneHolder, MappedAgent, MappedRemote, TargetsEqual;
    ForeignMeans(s);
  }

  // ----- when a call about a share fails -----

  /** When the old share cannot be unshared the reconcile stops there: nothing is created, binding and listing stay, and
      status says that healing failed. */
  lemma FailedTakeDownTold(s: St, cls: Classified, p: Plan)
    requires p.env.Env? && p.env.zid != "" && p.unshare != NoFault
    requires ReleaseTarget(s.cr, cls).Some? && ReleaseTarget(s.cr, cls).value != ""
    ensures var r := TakeDown(s, cls, p);
            && r.Done? && r.verdict == Errored && r.s.net.remote == s.net.remote && SameBinding(s.cr, r.s.cr)
            && r.s.cr.reclaimName == s.cr.reclaimName && (p.noteLands ==> Tells(r.s.cr, Conditions.Reason.HealError))
  {
    hide ReleaseTarget, EndNotReady, Tells, LiveFrontendName, SameBinding;
    var token := ReleaseTarget(s.cr, cls).value;
    var s1 := s.(net := ReleaseOurs(s.net, p.env.zid, token, p.releaseAnswers, p.unshare).net);
    EndTold(s1, Conditions.Reason.HealError, p.errText, p, Errored);
    EndFrame(s1, Conditions.Reason.HealError, p.errText, p, Errored);
    EndsWith(s1, Conditions.Reason.HealError, p.errText, p, Errored);
  }

  lemma EndsWith(s: St, reason: Conditions.Reason, message: string, p: Plan, v: Verdict)
    ensures EndNotReady(s, reason, message, p, v).Done? && EndNotReady(s, reason, message, p, v).verdict == v
  {
    hide NotReady;
  }

  /** When a share cannot be created nothing outside changes, and status says so; only a name in use goes to the
      handler of refused creations. */
  lemma FailedCreationTold(s: St, digest: string, p: Plan)
    requires p.env.Env? && p.share != NoFault
    requires s.cr.spec.shareMode == ShareMode.Private || p.share in {Denied, Broken} || !Named(s.cr.spec)
    ensures var r := Create(s, digest, p);
            && r.Done? && r.verdict == Errored && r.s.net == s.net && SameBinding(s.cr, r.s.cr)
            && (p.noteLands ==> Tells(r.s.cr, Conditions.Reason.ShareError))
  {
    hide EndNotReady, Tells, MarkShareReady, HandleShareConflict, SameBinding, RemoteByName, RemoteByToken;
    EndTold(s, Conditions.Reason.ShareError, p.errText, p, Errored);
    EndFrame(s, Conditions.Reason.ShareError, p.errText, p, Errored);
    EndsWith(s, Conditions.Reason.ShareError, p.errText, p, Errored);
  }
}
