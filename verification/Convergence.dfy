/** Fault-free reconciles reach a ready share in at most three steps, and then nothing moves any more. */
module Convergence {
  import opened Options
  import opened Digest
  import opened Inventory
  import opened ReleaseEvidence
  import opened ShareFrames
  import opened Shares
  import opened ShareSteps
  import opened Strings
  import opened Targets
  import opened Zrok

  /** Every read answers, every write lands, nothing fails, and the environment is ready. */
  predicate FaultFree(p: Plan, auth: seq<string>) {
    && p.env.Env? && p.env.ready && p.env.zid != "" && p.env.credential == Token && p.basicAuth == Some(auth)
    && p.resourcesListed && p.finalizerLands && p.remoteListed && p.agentAnswers
    && p.createName == NoFault && p.reserveName == NoFault && p.flush == NoFault && p.flushLands
    && p.releaseAnswers && p.unshare == NoFault && p.clearLands && p.recordLands && p.reclaim == NoFault
    && p.reclaimLands
    && p.share == NoFault && p.remoteListedAgain && p.agentAnswersAgain && p.releaseAnswersAgain
    && p.unshareAgain == NoFault
    && p.readyLands && p.digestLands
  }

  /** The world hands out an unused token and serves a public share under the name that was asked for. */
  ghost predicate Fits(s: St, p: Plan, auth: seq<string>) {
    && FaultFree(p, auth)
    && (p.restrictUpstream ==> !UpstreamBarred(s.cr) && s.cr.spec.backendMode != SOCKS)
    && p.newToken != "" && (forall r :: r in s.net.remote ==> r.token != p.newToken)
    && (ReservedName(s.cr.spec) != "" ==> AnyMatches(p.newEndpoints, ReservedName(s.cr.spec)))
  }

  ghost predicate AgentTokens(net: Net) {
    forall d, e :: d in net.agent && e in net.agent && d.token == e.token ==> d == e
  }

  /** The outside world is coherent and the wanted name is not another account's. */
  ghost predicate Coherent(s: St) {
    && TokensIdentify(s.net) && AgentBacked(s.net) && AgentTokens(s.net)
    && (forall key :: key in s.net.names ==> key.namespace != "")
    && OneHolder(s.net.remote, ReservedName(s.cr.spec))
    && !InvalidSelection(s.cr.spec) && s.cr.spec.upstream != "" && !s.cr.spec.shareMode.OtherMode?
    && (ReservedName(s.cr.spec) != "" ==> WantedKey(s.cr.spec) !in s.net.taken)
  }

  function FullInventory(net: Net): Inventory {
    Inventory(true, net.remote, net.agent)
  }

  /** The wanted vanity token is free, or held by a share with the desired target, or by the share in status. */
  ghost predicate VanityWithinReach(s: St) {
    var holder := RemoteByToken(s.net.remote, s.cr.spec.privateShareToken);
    holder.Some? ==>
      TargetsEqual(holder.value.target, s.cr.spec.upstream) || holder.value.token == s.cr.status.shareToken
  }

  /** Taking down a share served under `live` reclaims that name. */
  predicate Reclaims(c: ZrokShare, live: string) {
    c.status.reservation == Reserved && live != "" && live != ReservedName(c.spec) && c.spec.reclaimPolicy != Retain
  }

  /** No share but the one about to be taken down is served under the name that will be reclaimed from it. */
  ghost predicate OldNameFree(s: St) {
    var cls := Classify(s.cr, FullInventory(s.net));
    var target := ReleaseTarget(s.cr, cls);
    target.Some? && Reclaims(s.cr, LiveFrontendName(s.cr, cls)) ==>
      forall r :: r in s.net.remote && r.token != target.value ==>
        !AnyMatches(r.frontendEndpoints, LiveFrontendName(s.cr, cls))
  }

  /** A name recorded for reclaim is not in use. */
  predicate PendingNameFree(s: St) {
    s.cr.reclaimName != "" && s.cr.reclaimName != ReservedName(s.cr.spec) ==>
      !DeleteReply(s.net, NameKey(NamespaceToken(s.cr.spec), s.cr.reclaimName), NoFault).Attached?
  }

  /** Nothing is in the way but, perhaps, the recorded name. */
  ghost predicate ReachableBut(s: St) {
    && Coherent(s) && !HeldByForeigner(s.cr, FullInventory(s.net)) && VanityWithinReach(s) && OldNameFree(s)
  }

  /** Nothing outside the resource's reach is in the way. */
  ghost predicate Reachable(s: St) {
    ReachableBut(s) && PendingNameFree(s)
  }

  /** The status is what marking the share ready would write, whenever it is written. */
  ghost predicate ShowsReady(c: ZrokShare, d: ShareDetail) {
    forall now :: Marked(c, d.token, d.frontendEndpoints, now) == c
  }

  /** Ready: status, annotation, reservation and the live agent share all agree with the spec. */
  ghost predicate Converged(s: St, digest: string) {
    && s.cr.finalizer && s.cr.reclaimName == "" && s.cr.appliedDigest == digest && s.cr.status.shareToken != ""
    && AgentByToken(s.net.agent, s.cr.status.shareToken).Some?
    && (var d := AgentByToken(s.net.agent, s.cr.status.shareToken).value;
        AgentShareMatchesSpec(s.cr, d) && ShowsReady(s.cr, d))
    && (ReservedName(s.cr.spec) != "" ==> WantedKey(s.cr.spec) in s.net.names && s.net.names[WantedKey(s.cr.spec)])
    && Coherent(s) && !HeldByForeigner(s.cr, FullInventory(s.net))
  }

  // ----- marking -----

  lemma {:induction false} HasAfterApply(conditions: seq<Conditions.Condition>, u: Conditions.Update,
                                         v: Conditions.Update)
    requires (Shows(conditions, v) && u.kind != v.kind) || u == v
    ensures Shows(Conditions.Apply(conditions, u), v)
  {
    Conditions.ApplyLookup(conditions, u, v.kind);
  }

  /** The list already says what `u` would write. */
  predicate Shows(conditions: seq<Conditions.Condition>, u: Conditions.Update) {
    var c := Conditions.Lookup(conditions, u.kind);
    && c.Some? && c.value.status == u.status && c.value.reason == u.reason
    && c.value.message == Conditions.Truncate(u.message, Conditions.MESSAGE_LIMIT) && c.value.generation == u.generation
  }

  lemma ShownAtAnyTime(conditions: seq<Conditions.Condition>, u: Conditions.Update, now: int)
    requires Shows(conditions, u)
    ensures Shows(conditions, u.(now := now)) && Conditions.Apply(conditions, u.(now := now)) == conditions
  {
    Conditions.ApplyNoOp(conditions, u.(now := now));
  }

  /** Writing the four ready conditions twice is writing them once. */
  lemma ReadyConditionsSettle(c: ZrokShare, now: int, later: int)
    ensures ReadyConditions(c.(status := c.status.(conditions := ReadyConditions(c, now))), later)
            == ReadyConditions(c, now)
  {
    hide Conditions.Apply, Conditions.Lookup, Shows;
    var u := ReadyUpdates(c, now);
    var a := Conditions.Apply(c.status.conditions, u[0]);
    var b := Conditions.Apply(a, u[1]);
    var d := Conditions.Apply(b, u[2]);
    var e := Conditions.Apply(d, u[3]);
    HasAfterApply(c.status.conditions, u[0], u[0]);
    HasAfterApply(a, u[1], u[0]);
    HasAfterApply(b, u[2], u[0]);
    HasAfterApply(d, u[3], u[0]);
    HasAfterApply(a, u[1], u[1]);
    HasAfterApply(b, u[2], u[1]);
    HasAfterApply(d, u[3], u[1]);
    HasAfterApply(b, u[2], u[2]);
    HasAfterApply(d, u[3], u[2]);
    HasAfterApply(d, u[3], u[3]);
    ShownAtAnyTime(e, u[0], later);
    ShownAtAnyTime(e, u[1], later);
    ShownAtAnyTime(e, u[2], later);
    ShownAtAnyTime(e, u[3], later);
  }

  lemma MarkedShowsReady(c: ZrokShare, d: ShareDetail, now: int)
    ensures ShowsReady(Marked(c, d.token, d.frontendEndpoints, now), d)
  {
    hide Conditions.Apply, ReadyConditions;
    forall later
      ensures Marked(Marked(c, d.token, d.frontendEndpoints, now), d.token, d.frontendEndpoints, later)
           == Marked(c, d.token, d.frontendEndpoints, now)
    {
      ReadyConditionsSettle(c, now, later);
      SameUpdates(Marked(c, d.token, d.frontendEndpoints, now),
                  c.(status := c.status.(conditions := ReadyConditions(c, now))), later);
    }
  }

  // ----- the stages without faults -----

  lemma Admitted(s: St, p: Plan, auth: seq<string>)
    requires Fits(s, p, auth) && s.cr.finalizer && !InvalidSelection(s.cr.spec)
    ensures Admit(s, false, p) == More(s)
  {
    hide UpstreamBarred, InvalidSelection, Conditions.Apply;
  }

  /** With the names in place, a reconcile is one pass over the full inventory. */
  lemma OnePass(s: St, p: Plan, auth: seq<string>)
    requires Fits(s, p, auth) && s.cr.finalizer && !InvalidSelection(s.cr.spec)
    requires !HeldByForeigner(s.cr, FullInventory(s.net)) && Names(s, p).More?
    ensures var digest, cls, named := ApplyDigest(s.cr.spec, auth), Classify(s.cr, FullInventory(s.net)), Names(s, p).s;
            var adopted := AdoptableAgentShare(named.cr, cls, digest);
            Reconcile(s, false, p)
            == if adopted.Some?
               then MarkShareReady(named, adopted.value.token, adopted.value.frontendEndpoints, digest, p)
               else if TakeDown(named, cls, p).Done? then TakeDown(named, cls, p)
               else Create(TakeDown(named, cls, p).s, digest, p)
  {
    hide Admit, Names, TakeDown, Create, MarkShareReady, HeldByForeigner, MappedAgent, MappedRemote;
    hide AdoptableAgentShare, ApplyDigest;
    hide InvalidSelection, UpstreamBarred;
    Admitted(s, p, auth);
  }

  lemma EnsuredOk(s: St, p: Plan)
    requires p.createName == NoFault && p.reserveName == NoFault
    requires ReservedName(s.cr.spec) != "" ==> WantedKey(s.cr.spec) !in s.net.taken
    ensures var r, key := EnsureReservedName(s, p), WantedKey(s.cr.spec);
            && r.More? && r.s.cr == s.cr
            && (if ReservedName(s.cr.spec) == "" then r.s == s
                else r.s.net == s.net.(names := s.net.names[key := true],
                                       log := s.net.log + [CreatedName(key), ReservedIt(key)]))
  {
    hide Conditions.Apply, NameRefused;
    var key := WantedKey(s.cr.spec);
    assert s.net.log + [CreatedName(key)] + [ReservedIt(key)] == s.net.log + [CreatedName(key), ReservedIt(key)];
    assert s.net.names[key := false][key := true] == s.net.names[key := true];
  }

  lemma NamesOk(s: St, p: Plan)
    requires p.createName == NoFault && p.reserveName == NoFault && p.flush == NoFault && p.flushLands
    requires Coherent(s) && PendingNameFree(s)
    ensures var r := Names(s, p);
            && r.More? && r.s.cr == s.cr.(reclaimName := "")
            && r.s.net.remote == s.net.remote && r.s.net.agent == s.net.agent && r.s.net.taken == s.net.taken
            && (forall key :: key in r.s.net.names ==> key.namespace != "")
            && (ReservedName(s.cr.spec) != "" ==>
                  WantedKey(s.cr.spec) in r.s.net.names && r.s.net.names[WantedKey(s.cr.spec)])
  {
    hide EnsureReservedName, TokensIdentify, AgentBacked, AgentTokens, OneHolder, InvalidSelection;
    EnsuredOk(s, p);
    var ensured := EnsureReservedName(s, p);
    FlushOk(ensured.s, p.flush, p.flushLands);
    PendingStillFree(s, ensured.s);
  }

  lemma PendingStillFree(s: St, t: St)
    requires PendingNameFree(s) && t.cr == s.cr && t.net.remote == s.net.remote && t.net.taken == s.net.taken
    requires forall key :: key in t.net.names ==> key in s.net.names || key == WantedKey(s.cr.spec)
    ensures PendingNameFree(t)
  {}

  lemma FlushOk(s: St, fault: Fault, lands: bool)
    requires fault == NoFault && lands
    ensures PendingNameFree(s) ==>
              var r := FlushReclaimName(s, fault, lands);
              && r.More? && r.s.cr == s.cr.(reclaimName := "")
              && r.s.net.remote == s.net.remote && r.s.net.agent == s.net.agent && r.s.net.taken == s.net.taken
              && (forall key :: key in r.s.net.names ==> key in s.net.names && r.s.net.names[key] == s.net.names[key])
              && (WantedKey(s.cr.spec) in s.net.names ==> WantedKey(s.cr.spec) in r.s.net.names)
  {}

  /** What the agent reports is what the spec asks for, reservation aside. */
  predicate AgentFits(spec: ShareSpec, d: ShareDetail) {
    && IsAgentShareActive(d) && AgentTargetOK(d, spec.upstream)
    && (d.shareMode != "" ==> EqualFold(d.shareMode, ModeText(DesiredShareMode(spec))))
    && (d.backendMode != "" ==> EqualFold(d.backendMode, DesiredBackendMode(spec)))
    && d.closed == spec.closed
    && (spec.privateShareToken != "" ==> d.token == spec.privateShareToken)
    && (ReservedName(spec) != "" ==> AnyMatches(d.frontendEndpoints, ReservedName(spec)))
  }

  lemma MatchIsFit(c: ZrokShare, d: ShareDetail)
    ensures AgentShareMatchesSpec(c, d) ==> AgentFits(c.spec, d)
    ensures AgentFits(c.spec, d) && (ReservedName(c.spec) == "" ==> c.status.reservation != Reserved) ==>
              AgentShareMatchesSpec(c, d)
  {
    hide AgentTargetOK, EqualFold, AnyMatches;
  }

  lemma MarkedFits(c: ZrokShare, d: ShareDetail, now: int)
    requires AgentFits(c.spec, d)
    ensures AgentShareMatchesSpec(Marked(c, d.token, d.frontendEndpoints, now), d)
  {
    hide AgentFits, AgentShareMatchesSpec, ReadyConditions;
    MatchIsFit(Marked(c, d.token, d.frontendEndpoints, now), d);
  }

  lemma MarkConverges(s: St, d: ShareDetail, digest: string, p: Plan)
    requires p.readyLands && p.digestLands && s.cr.finalizer && s.cr.reclaimName == "" && Coherent(s)
    requires d.token != "" && AgentByToken(s.net.agent, d.token) == Some(d) && AgentFits(s.cr.spec, d)
    requires ReservedName(s.cr.spec) != "" ==> WantedKey(s.cr.spec) in s.net.names && s.net.names[WantedKey(s.cr.spec)]
    requires var holder := RemoteByName(s.net.remote, ReservedName(s.cr.spec));
             holder.Some? ==> TargetsEqual(holder.value.target, s.cr.spec.upstream) || holder.value.token == d.token
    ensures Converged(MarkShareReady(s, d.token, d.frontendEndpoints, digest, p).s, digest)
  {
    hide AgentFits, AgentShareMatchesSpec, ReadyConditions, TargetsEqual, AgentByToken, RemoteByName, ShowsReady;
    hide TokensIdentify, AgentBacked, AgentTokens, OneHolder, InvalidSelection;
    MarkedFits(s.cr, d, p.now);
    MarkedShowsReady(s.cr, d, p.now);
    DigestDoesNotShow(Marked(s.cr, d.token, d.frontendEndpoints, p.now), d, digest);
  }

  /** The digest annotation plays no part in the status or in the match. */
  lemma DigestDoesNotShow(c: ZrokShare, d: ShareDetail, digest: string)
    requires ShowsReady(c, d) && AgentShareMatchesSpec(c, d)
    ensures ShowsReady(c.(appliedDigest := digest), d) && AgentShareMatchesSpec(c.(appliedDigest := digest), d)
  {
    hide AgentTargetOK, EqualFold, AnyMatches, Conditions.Apply;
    forall now
      ensures Marked(c.(appliedDigest := digest), d.token, d.frontendEndpoints, now) == c.(appliedDigest := digest)
    {
      assert Marked(c, d.token, d.frontendEndpoints, now) == c;
      SameUpdates(c, c.(appliedDigest := digest), now);
    }
  }

  lemma AdoptConverges(s: St, t: St, digest: string, p: Plan)
    requires p.readyLands && p.digestLands && Coherent(s) && Coherent(t) && !HeldByForeigner(s.cr, FullInventory(s.net))
    requires t.cr == s.cr.(reclaimName := "") && t.net.remote == s.net.remote && t.net.agent == s.net.agent
    requires s.cr.finalizer
    requires ReservedName(t.cr.spec) != "" ==> WantedKey(t.cr.spec) in t.net.names && t.net.names[WantedKey(t.cr.spec)]
    requires AdoptableAgentShare(t.cr, Classify(s.cr, FullInventory(s.net)), digest).Some?
    ensures var d := AdoptableAgentShare(t.cr, Classify(s.cr, FullInventory(s.net)), digest).value;
            Converged(MarkShareReady(t, d.token, d.frontendEndpoints, digest, p).s, digest)
  {
    hide AgentFits, AgentShareMatchesSpec, ReadyConditions, TargetsEqual, MarkShareReady, MappedRemote;
    hide ShareDigestDrifted, Converged;
    var d := MappedAgent(s.cr, FullInventory(s.net)).value;
    MatchIsFit(t.cr, d);
    AgentTokenFinds(s, d);
    NameHolderIsAgent(s, d);
    MarkConverges(t, d, digest, p);
  }

  lemma AgentTokenFinds(s: St, d: ShareDetail)
    requires Coherent(s) && d in s.net.agent
    ensures d.token != "" && AgentByToken(s.net.agent, d.token) == Some(d)
  {}

  /** A name held by the share in status is held by the mapped agent share. */
  lemma NameHolderIsAgent(s: St, d: ShareDetail)
    requires Coherent(s) && MappedAgent(s.cr, FullInventory(s.net)) == Some(d)
    requires !HeldByForeigner(s.cr, FullInventory(s.net))
    ensures var holder := RemoteByName(s.net.remote, ReservedName(s.cr.spec));
            holder.Some? ==> TargetsEqual(holder.value.target, s.cr.spec.upstream) || holder.value.token == d.token
    ensures d in s.net.agent
  {
    hide TargetsEqual;
    var name := ReservedName(s.cr.spec);
    var holder := RemoteByName(s.net.remote, name);
    if AgentByToken(s.net.agent, s.cr.status.shareToken).None? {
      assert AgentByName(s.net.agent, name) == Some(d);
      var r :| r in s.net.remote && r.token == d.token && r.target == d.backendEndpoint
               && r.frontendEndpoints == d.frontendEndpoints;
      assert AnyMatches(r.frontendEndpoints, name);
    }
  }

  /** The wanted name is reserved, whenever there is one. */
  predicate NameInPlace(s: St) {
    ReservedName(s.cr.spec) != "" ==> WantedKey(s.cr.spec) in s.net.names && s.net.names[WantedKey(s.cr.spec)]
  }

  lemma ReclaimOk(s: St, oldName: string, wasReserved: bool, p: Plan)
    requires p.recordLands && p.reclaim == NoFault && p.reclaimLands && s.cr.reclaimName == "" && NameInPlace(s)
    requires wasReserved && oldName != "" && oldName != ReservedName(s.cr.spec) && s.cr.spec.reclaimPolicy != Retain ==>
               RemoteByName(s.net.remote, oldName).None? || NameKey(NamespaceToken(s.cr.spec), oldName) !in s.net.names
    ensures var r := ReclaimPreviousName(s, oldName, wasReserved, p);
            && r.More? && r.s.cr == s.cr && NameInPlace(r.s)
            && r.s.net.remote == s.net.remote && r.s.net.agent == s.net.agent && r.s.net.taken == s.net.taken
            && (forall key :: key in r.s.net.names ==> key in s.net.names)
  {
    hide FlushReclaimName, NamespaceToken;
    var noted := St(s.cr.(reclaimName := oldName), s.net.(log := s.net.log + [RecordedReclaim(oldName)]));
    FlushOk(noted, p.reclaim, p.reclaimLands);
    assert wasReserved && oldName != "" && oldName != ReservedName(s.cr.spec) && s.cr.spec.reclaimPolicy != Retain ==>
      PendingNameFree(noted);
    assert noted.cr.(reclaimName := "") == s.cr;
  }

  /** Taking down one share, all calls answering. */
  lemma TakeDownOk(s: St, cls: Classified, token: string, p: Plan, auth: seq<string>)
    requires FaultFree(p, auth) && s.cr.reclaimName == "" && NameInPlace(s) && token != ""
    requires ReleaseTarget(s.cr, cls) == Some(token)
    requires Reclaims(s.cr, LiveFrontendName(s.cr, cls)) ==>
               (forall r :: r in s.net.remote && r.token != token ==>
                  !AnyMatches(r.frontendEndpoints, LiveFrontendName(s.cr, cls)))
               || NameKey(NamespaceToken(s.cr.spec), LiveFrontendName(s.cr, cls)) !in s.net.names
    ensures var r := TakeDown(s, cls, p);
            && r.More? && r.s.cr == Cleared(s.cr, p.now) && NameInPlace(r.s)
            && r.s.net.remote == WithoutRemote(s.net.remote, token) && r.s.net.taken == s.net.taken
            && r.s.net.agent == WithoutAgent(WithoutAgent(s.net.agent, token), token)
            && (forall key :: key in r.s.net.names ==> key in s.net.names)
  {
    hide ReleaseTarget, LiveFrontendName, ReclaimPreviousName, Conditions.Apply, AnyMatches, NamespaceToken;
    var released := ReleaseAndClear(s, token, p);
    assert released == More(St(Cleared(s.cr, p.now), released.s.net));
    ReclaimOk(released.s, LiveFrontendName(s.cr, cls), s.cr.status.reservation == Reserved, p);
  }

  lemma FewerCoherent(s: St, t: St, token: string)
    requires Coherent(s) && t.cr.spec == s.cr.spec && t.net.taken == s.net.taken
    requires t.net.remote == WithoutRemote(s.net.remote, token)
    requires forall d :: d in t.net.agent ==> d in s.net.agent && d.token != token
    requires forall key :: key in t.net.names ==> key in s.net.names
    ensures Coherent(t)
  {
    hide InvalidSelection;
    forall d | d in t.net.agent
      ensures exists r :: r in t.net.remote && r.token == d.token && r.target == d.backendEndpoint
                          && r.frontendEndpoints == d.frontendEndpoints
    {
      var r :| r in s.net.remote && r.token == d.token && r.target == d.backendEndpoint
               && r.frontendEndpoints == d.frontendEndpoints;
      assert r in t.net.remote;
    }
  }

  // ----- creation -----

  lemma {:induction false} AppendFinds(agent: seq<ShareDetail>, d: ShareDetail)
    requires d.token != "" && forall e :: e in agent ==> e.token != d.token
    ensures AgentByToken(agent + [d], d.token) == Some(d)
  {
    if agent != [] {
      assert (agent + [d])[1..] == agent[1..] + [d];
      AppendFinds(agent[1..], d);
    }
  }

  lemma AddedCoherent(s: St, mode: ShareMode, token: string, endpoints: seq<string>)
    requires Coherent(s) && token != "" && forall r :: r in s.net.remote ==> r.token != token
    requires AnyMatches(endpoints, ReservedName(s.cr.spec)) ==>
               forall r :: r in s.net.remote ==> !AnyMatches(r.frontendEndpoints, ReservedName(s.cr.spec))
    ensures var net := AddShare(s.net, s.cr.id, s.cr.spec, mode, token, endpoints);
            Coherent(s.(net := net))
            && AgentByToken(net.agent, token) == Some(CreatedDetail(s.cr.spec, mode, token, endpoints))
  {
    hide InvalidSelection, ModeText, DesiredBackendMode, AnyMatches, AgentBacked;
    var net := AddShare(s.net, s.cr.id, s.cr.spec, mode, token, endpoints);
    var r, d := CreatedRemote(s.cr.spec, mode, token, endpoints), CreatedDetail(s.cr.spec, mode, token, endpoints);
    assert forall q :: q in net.remote <==> q in s.net.remote || q == r;
    assert forall e :: e in net.agent <==> e in s.net.agent || e == d;
    AgentLacks(s, token);
    AppendFinds(s.net.agent, d);
    AddedBacked(s.net, s.cr.id, s.cr.spec, mode, token, endpoints);
  }

  lemma AgentLacks(s: St, token: string)
    requires AgentBacked(s.net) && forall r :: r in s.net.remote ==> r.token != token
    ensures forall e :: e in s.net.agent ==> e.token != token
  {}

  lemma CreatedFits(spec: ShareSpec, token: string, endpoints: seq<string>)
    requires spec.upstream != "" && (spec.privateShareToken != "" ==> token == spec.privateShareToken)
    requires ReservedName(spec) != "" ==> AnyMatches(endpoints, ReservedName(spec))
    ensures AgentFits(spec, CreatedDetail(spec, DesiredShareMode(spec), token, endpoints))
  {
    hide TargetsEqual, NormalizeTarget, AnyMatches, DesiredBackendMode;
    assert TargetsEqual(spec.upstream, spec.upstream) by { SameTargets(spec.upstream); }
  }

  lemma SameTargets(target: string)
    ensures TargetsEqual(target, target)
  {
    hide NormalizeTarget;
  }

  lemma HolderIsNew(s: St, mode: ShareMode, token: string, endpoints: seq<string>)
    requires RemoteByName(s.net.remote, ReservedName(s.cr.spec)).None?
    ensures var holder :=
              RemoteByName(AddShare(s.net, s.cr.id, s.cr.spec, mode, token, endpoints).remote, ReservedName(s.cr.spec));
            holder.Some? ==> holder.value.token == token
  {
    hide ModeText, DesiredBackendMode, AnyMatches;
  }

  /** A share freshly added under the desired mode makes the resource ready. */
  lemma AddedConverges(s: St, token: string, endpoints: seq<string>, digest: string, p: Plan)
    requires p.readyLands && p.digestLands && Coherent(s) && s.cr.finalizer && s.cr.reclaimName == "" && NameInPlace(s)
    requires token != "" && forall r :: r in s.net.remote ==> r.token != token
    requires s.cr.spec.privateShareToken != "" ==> token == s.cr.spec.privateShareToken
    requires ReservedName(s.cr.spec) != "" ==> AnyMatches(endpoints, ReservedName(s.cr.spec))
    requires RemoteByName(s.net.remote, ReservedName(s.cr.spec)).None?
    ensures var net := AddShare(s.net, s.cr.id, s.cr.spec, DesiredShareMode(s.cr.spec), token, endpoints);
            Converged(MarkShareReady(s.(net := net), token, endpoints, digest, p).s, digest)
  {
    hide AddShare, MarkShareReady, AgentFits, Coherent, Converged, TargetsEqual, AnyMatches;
    var mode := DesiredShareMode(s.cr.spec);
    var net := AddShare(s.net, s.cr.id, s.cr.spec, mode, token, endpoints);
    if ReservedName(s.cr.spec) != "" {
      NoMatchNoHolder(s);
    }
    NothingMatchesNothing(endpoints);
    AddedCoherent(s, mode, token, endpoints);
    SpecIsPlausible(s);
    CreatedFits(s.cr.spec, token, endpoints);
    HolderIsNew(s, mode, token, endpoints);
    AddedNames(s, mode, token, endpoints);
    MarkConverges(s.(net := net), CreatedDetail(s.cr.spec, mode, token, endpoints), digest, p);
  }

  lemma SpecIsPlausible(s: St)
    requires Coherent(s)
    ensures s.cr.spec.upstream != ""
  {}

  lemma AddedNames(s: St, mode: ShareMode, token: string, endpoints: seq<string>)
    ensures AddShare(s.net, s.cr.id, s.cr.spec, mode, token, endpoints).names == s.net.names
  {}

  lemma NothingMatchesNothing(endpoints: seq<string>)
    ensures !AnyMatches(endpoints, "")
  {}

  lemma CreateConverges(s: St, digest: string, p: Plan, auth: seq<string>)
    requires FaultFree(p, auth) && Coherent(s) && s.cr.finalizer && s.cr.reclaimName == "" && NameInPlace(s)
    requires p.newToken != "" && forall r :: r in s.net.remote ==> r.token != p.newToken
    requires ReservedName(s.cr.spec) != "" ==> AnyMatches(p.newEndpoints, ReservedName(s.cr.spec))
    requires RemoteByName(s.net.remote, ReservedName(s.cr.spec)).None?
    requires RemoteByToken(s.net.remote, s.cr.spec.privateShareToken).None?
    ensures Converged(Create(s, digest, p).s, digest)
  {
    hide AddShare, MarkShareReady, Converged, AnyMatches, HandleShareConflict, TokensIdentify, AgentBacked, AgentTokens;
    hide OneHolder;
    if DesiredShareMode(s.cr.spec) == ShareMode.Private {
      AddedConverges(s, VanityOr(s.cr.spec, p.newToken), [], digest, p);
    } else {
      AddedConverges(s, p.newToken, p.newEndpoints, digest, p);
    }
  }

  lemma NoMatchNoHolder(s: St)
    requires RemoteByName(s.net.remote, ReservedName(s.cr.spec)).None? && ReservedName(s.cr.spec) != ""
    ensures forall r :: r in s.net.remote ==> !AnyMatches(r.frontendEndpoints, ReservedName(s.cr.spec))
  {}

  // ----- the steps -----

  /** Nothing is bound and nothing stands in the way but, perhaps, a holder of the vanity token
      with the right target. */
  ghost predicate Clean(s: St) {
    && s.cr.finalizer && s.cr.reclaimName == "" && s.cr.status.shareToken == "" && s.cr.status.assignedURL == ""
    && Coherent(s) && NameInPlace(s)
    && RemoteByName(s.net.remote, ReservedName(s.cr.spec)).None?
    && VanityWithinReach(s)
  }

  /** A reconcile from a clean state ends ready. */
  lemma CleanStep(s: St, p: Plan, auth: seq<string>)
    requires Clean(s) && Fits(s, p, auth)
    ensures Converged(Reconcile(s, false, p).s, ApplyDigest(s.cr.spec, auth))
  {
    hide Reconcile, Names, TakeDown, Create, Coherent, Classify, ReleaseTarget, ApplyDigest, Converged, AnyMatches;
    hide TargetsEqual;
    hide AdoptableAgentShare, FullInventory, WantedKey, MarkShareReady, UpstreamBarred, FaultFree, HeldByForeigner;
    hide LiveFrontendName, RemoteByToken, RemoteByName;
    CleanFacts(s, p, auth);
    var named := Names(s, p).s;
    var digest, cls := ApplyDigest(s.cr.spec, auth), Classify(s.cr, FullInventory(s.net));
    OnePass(s, p, auth);
    CleanClassified(s);
    NotAdoptable(named.cr, cls, digest);
    NamedCoherent(s, named);
    var vanity := RemoteByToken(s.net.remote, s.cr.spec.privateShareToken);
    if vanity.None? {
      NothingToTake(named, cls, p);
      CreateConverges(named, digest, p, auth);
    } else {
      CleanTakeDown(s, named, cls, p, auth);
      var down := TakeDown(named, cls, p).s;
      CreateConverges(down, digest, p, auth);
    }
  }

  lemma CleanFacts(s: St, p: Plan, auth: seq<string>)
    requires Clean(s) && Fits(s, p, auth)
    ensures FaultFree(p, auth) && p.env.Env? && !InvalidSelection(s.cr.spec)
    ensures !HeldByForeigner(s.cr, FullInventory(s.net)) && Names(s, p).More?
    ensures Names(s, p).s.cr == s.cr && NameInPlace(Names(s, p).s)
    ensures var named := Names(s, p).s;
            && named.net.remote == s.net.remote && named.net.agent == s.net.agent && named.net.taken == s.net.taken
            && forall key :: key in named.net.names ==> key.namespace != ""
  {
    hide Names;
    NamesOk(s, p);
  }

  lemma NamedCoherent(s: St, t: St)
    requires Coherent(s) && t.cr.spec == s.cr.spec
    requires t.net.remote == s.net.remote && t.net.agent == s.net.agent && t.net.taken == s.net.taken
    requires forall key :: key in t.net.names ==> key.namespace != ""
    ensures Coherent(t)
  {
    hide InvalidSelection;
  }

  lemma CleanClassified(s: St)
    requires Clean(s)
    ensures Classify(s.cr, FullInventory(s.net))
         == Classified(RemoteByToken(s.net.remote, s.cr.spec.privateShareToken), None, false)
  {
    hide TargetsEqual, VanityWithinReach;
    var name := ReservedName(s.cr.spec);
    forall d | d in s.net.agent && name != ""
      ensures !AnyMatches(d.frontendEndpoints, name)
    {
      var r :| r in s.net.remote && r.token == d.token && r.target == d.backendEndpoint
               && r.frontendEndpoints == d.frontendEndpoints;
      assert !AnyMatches(r.frontendEndpoints, name);
    }
  }

  lemma NotAdoptable(c: ZrokShare, cls: Classified, digest: string)
    requires cls.agent.None?
    ensures AdoptableAgentShare(c, cls, digest).None?
  {}

  lemma NothingToTake(s: St, cls: Classified, p: Plan)
    requires p.env.Env? && cls.agent.None? && cls.remote.None?
    ensures TakeDown(s, cls, p) == More(s)
  {}

  /** Only a private share has a vanity token, and its name, if any, lies in no namespace. */
  lemma CleanTakeDown(s: St, named: St, cls: Classified, p: Plan, auth: seq<string>)
    requires Clean(s) && FaultFree(p, auth) && named.cr == s.cr && NameInPlace(named) && Coherent(named)
    requires named.net.remote == s.net.remote && named.net.agent == s.net.agent
    requires cls == Classified(RemoteByToken(s.net.remote, s.cr.spec.privateShareToken), None, false)
    requires cls.remote.Some?
    ensures var r := TakeDown(named, cls, p);
            && r.More? && r.s.cr == s.cr && NameInPlace(r.s) && Coherent(r.s)
            && (forall q :: q in r.s.net.remote ==> q in s.net.remote)
            && RemoteByName(r.s.net.remote, ReservedName(s.cr.spec)).None?
            && RemoteByToken(r.s.net.remote, s.cr.spec.privateShareToken).None?
  {
    hide TargetsEqual, LiveFrontendName, AnyMatches, Conditions.Apply, TakeDown, TokensIdentify, AgentBacked;
    hide AgentTokens, OneHolder;
    var token := s.cr.spec.privateShareToken;
    assert NamespaceToken(s.cr.spec) == "";
    CleanTarget(s, cls);
    TakeDownOk(named, cls, token, p, auth);
    var r := TakeDown(named, cls, p);
    FewerCoherent(named, r.s, token);
  }

  lemma CleanTarget(s: St, cls: Classified)
    requires Clean(s) && cls == Classified(RemoteByToken(s.net.remote, s.cr.spec.privateShareToken), None, false)
    requires cls.remote.Some?
    ensures ReleaseTarget(s.cr, cls) == Some(s.cr.spec.privateShareToken) && s.cr.spec.privateShareToken != ""
  {
    hide TargetsEqual;
  }

  /** A reconcile from a reachable state ends ready, or, when a 409 or a held vanity token got in between, clean. */
  lemma MainStep(s: St, p: Plan, auth: seq<string>)
    requires Reachable(s) && s.cr.finalizer && Fits(s, p, auth)
    ensures var t := Reconcile(s, false, p).s;
            Converged(t, ApplyDigest(s.cr.spec, auth)) || Clean(t)
  {
    hide Reconcile, Names, TakeDown, Create, Coherent, Classify, ReleaseTarget, ApplyDigest, Converged, AnyMatches;
    hide TargetsEqual;
    hide AdoptableAgentShare, FullInventory, WantedKey, MarkShareReady, UpstreamBarred, FaultFree, HeldByForeigner;
    hide LiveFrontendName;
    hide Clean, InvalidSelection, NameInPlace, Cleared;
    var digest, cls := ApplyDigest(s.cr.spec, auth), Classify(s.cr, FullInventory(s.net));
    MainFacts(s, p, auth);
    var named := Names(s, p).s;
    OnePass(s, p, auth);
    NamedCoherent(s, named);
    var adopted := AdoptableAgentShare(named.cr, cls, digest);
    if adopted.Some? {
      AdoptHere(s, named, digest, p, auth);
    } else {
      MainTakeDown(s, named, cls, p, auth);
      var down := TakeDown(named, cls, p).s;
      MainCreate(s, down, digest, p, auth);
    }
  }

  lemma MainFacts(s: St, p: Plan, auth: seq<string>)
    requires Reachable(s) && s.cr.finalizer && Fits(s, p, auth)
    ensures FaultFree(p, auth) && p.env.Env? && p.newToken != ""
    ensures !InvalidSelection(s.cr.spec) && !HeldByForeigner(s.cr, FullInventory(s.net)) && Names(s, p).More?
    ensures Names(s, p).s.cr == s.cr.(reclaimName := "") && NameInPlace(Names(s, p).s)
    ensures var named := Names(s, p).s;
            && named.net.remote == s.net.remote && named.net.agent == s.net.agent && named.net.taken == s.net.taken
            && forall key :: key in named.net.names ==> key.namespace != ""
  {
    hide Names, PendingNameFree, HeldByForeigner, OldNameFree, VanityWithinReach;
    NamesOk(s, p);
  }

  lemma AdoptHere(s: St, named: St, digest: string, p: Plan, auth: seq<string>)
    requires FaultFree(p, auth) && Coherent(s) && Coherent(named) && !HeldByForeigner(s.cr, FullInventory(s.net))
    requires named.cr == s.cr.(reclaimName := "") && named.net.remote == s.net.remote && named.net.agent == s.net.agent
    requires s.cr.finalizer && NameInPlace(named)
    requires AdoptableAgentShare(named.cr, Classify(s.cr, FullInventory(s.net)), digest).Some?
    ensures var d := AdoptableAgentShare(named.cr, Classify(s.cr, FullInventory(s.net)), digest).value;
            Converged(MarkShareReady(named, d.token, d.frontendEndpoints, digest, p).s, digest)
  {
    hide Coherent, HeldByForeigner, AdoptableAgentShare, MarkShareReady, Converged, Classify;
    AdoptConverges(s, named, digest, p);
  }

  /** The mapped share is down: what still holds the wanted name or vanity token has the desired target. */
  ghost predicate Freed(t: St) {
    var byName, byToken :=
      RemoteByName(t.net.remote, ReservedName(t.cr.spec)), RemoteByToken(t.net.remote, t.cr.spec.privateShareToken);
    && t.cr.finalizer && t.cr.reclaimName == "" && Coherent(t) && NameInPlace(t)
    && (byName.Some? ==> TargetsEqual(byName.value.target, t.cr.spec.upstream))
    && (byToken.Some? ==> TargetsEqual(byToken.value.target, t.cr.spec.upstream))
    && (byName.Some? || byToken.Some? ==> t.cr.status.shareToken == "" && t.cr.status.assignedURL == "")
  }

  /** The mapped share is listed, and the wanted name is not in other hands. */
  lemma TargetIsListed(s: St, token: string)
    requires Reachable(s) && ReleaseTarget(s.cr, Classify(s.cr, FullInventory(s.net))) == Some(token)
    ensures token != ""
    ensures var holder := RemoteByName(s.net.remote, ReservedName(s.cr.spec));
            holder.Some? && holder.value.token != token ==> TargetsEqual(holder.value.target, s.cr.spec.upstream)
  {
    hide TargetsEqual, LiveFrontendName, PendingNameFree, OldNameFree, InvalidSelection, VanityWithinReach;
    var name, status := ReservedName(s.cr.spec), s.cr.status.shareToken;
    var agent := MappedAgent(s.cr, FullInventory(s.net));
    if agent.Some? {
      var d := agent.value;
      var r :| r in s.net.remote && r.token == d.token && r.target == d.backendEndpoint
               && r.frontendEndpoints == d.frontendEndpoints;
      assert AgentByToken(s.net.agent, status).None? ==> AnyMatches(r.frontendEndpoints, name);
    }
  }

  lemma VanityNotElsewhere(s: St, token: string)
    requires Reachable(s) && ReleaseTarget(s.cr, Classify(s.cr, FullInventory(s.net))) == Some(token)
    ensures var holder := RemoteByToken(s.net.remote, s.cr.spec.privateShareToken);
            holder.Some? && holder.value.token != token ==> TargetsEqual(holder.value.target, s.cr.spec.upstream)
  {
    hide TargetsEqual, LiveFrontendName, PendingNameFree, OldNameFree, AgentBacked, AgentTokens, OneHolder;
  }

  lemma NoTargetNoHolder(s: St)
    requires Reachable(s) && ReleaseTarget(s.cr, Classify(s.cr, FullInventory(s.net))).None?
    ensures RemoteByName(s.net.remote, ReservedName(s.cr.spec)).None?
    ensures RemoteByToken(s.net.remote, s.cr.spec.privateShareToken).None?
  {
    hide TargetsEqual, LiveFrontendName, PendingNameFree, OldNameFree, Coherent;
  }

  lemma MainTakeDown(s: St, named: St, cls: Classified, p: Plan, auth: seq<string>)
    requires Reachable(s) && FaultFree(p, auth) && p.env.Env? && cls == Classify(s.cr, FullInventory(s.net))
    requires s.cr.finalizer
    requires named.cr == s.cr.(reclaimName := "") && NameInPlace(named) && Coherent(named)
    requires named.net.remote == s.net.remote && named.net.agent == s.net.agent
    ensures var r := TakeDown(named, cls, p);
            r.More? && Freed(r.s) && r.s.cr.spec == s.cr.spec && forall q :: q in r.s.net.remote ==> q in s.net.remote
  {
    hide TargetsEqual, Coherent, Classify, ReleaseTarget, LiveFrontendName, AnyMatches, Reachable, RemoteByName;
    hide RemoteByToken, TakeDown;
    hide NameInPlace, NamespaceToken, FaultFree, Conditions.Apply;
    var target := ReleaseTarget(s.cr, cls);
    SameTarget(s.cr, named.cr, cls);
    if target.None? {
      NoTargetNoHolder(s);
      TakesNothing(named, cls, p, auth);
    } else {
      TargetIsListed(s, target.value);
      VanityNotElsewhere(s, target.value);
      LiveNameFree(s, named, cls, target.value);
      TakeDownOk(named, cls, target.value, p, auth);
      var r := TakeDown(named, cls, p);
      FewerCoherent(named, r.s, target.value);
      FewerHolders(s, named, r.s, target.value, p.now);
    }
  }

  lemma TakesNothing(s: St, cls: Classified, p: Plan, auth: seq<string>)
    requires FaultFree(p, auth) && ReleaseTarget(s.cr, cls).None?
    ensures TakeDown(s, cls, p) == More(s)
  {}

  lemma LiveNameFree(s: St, named: St, cls: Classified, token: string)
    requires Reachable(s) && cls == Classify(s.cr, FullInventory(s.net)) && ReleaseTarget(s.cr, cls) == Some(token)
    requires named.cr == s.cr.(reclaimName := "") && named.net.remote == s.net.remote
    ensures Reclaims(named.cr, LiveFrontendName(named.cr, cls)) ==>
              forall r :: r in named.net.remote && r.token != token ==>
                !AnyMatches(r.frontendEndpoints, LiveFrontendName(named.cr, cls))
  {
    hide TargetsEqual, Coherent, Classify, ReleaseTarget, AnyMatches;
    assert LiveFrontendName(named.cr, cls) == LiveFrontendName(s.cr, cls) by { SameLiveName(s.cr, named.cr, cls); }
  }

  lemma SameLiveName(c: ZrokShare, d: ZrokShare, cls: Classified)
    requires c.status == d.status
    ensures LiveFrontendName(c, cls) == LiveFrontendName(d, cls)
  {}

  lemma FewerHolders(s: St, named: St, t: St, token: string, now: int)
    requires named.cr == s.cr.(reclaimName := "") && named.net.remote == s.net.remote && s.cr.finalizer
    requires t.cr == Cleared(named.cr, now) && t.net.remote == WithoutRemote(s.net.remote, token)
    requires Coherent(t) && NameInPlace(t) && Coherent(named)
    requires var holder := RemoteByName(s.net.remote, ReservedName(s.cr.spec));
             holder.Some? && holder.value.token != token ==> TargetsEqual(holder.value.target, s.cr.spec.upstream)
    requires var holder := RemoteByToken(s.net.remote, s.cr.spec.privateShareToken);
             holder.Some? && holder.value.token != token ==> TargetsEqual(holder.value.target, s.cr.spec.upstream)
    ensures Freed(t)
  {
    hide TargetsEqual, Conditions.Apply, InvalidSelection, NameInPlace;
  }

  lemma MainCreate(s: St, t: St, digest: string, p: Plan, auth: seq<string>)
    requires Freed(t) && FaultFree(p, auth) && Fits(s, p, auth) && t.cr.spec == s.cr.spec
    requires forall q :: q in t.net.remote ==> q in s.net.remote
    ensures var r := Create(t, digest, p); Converged(r.s, digest) || Clean(r.s)
  {
    hide Coherent, AddShare, MarkShareReady, Converged, Clean, HandleShareConflict, AnyMatches, UpstreamBarred;
    hide TargetsEqual, Conditions.Apply;
    var byName, byToken :=
      RemoteByName(t.net.remote, ReservedName(t.cr.spec)), RemoteByToken(t.net.remote, t.cr.spec.privateShareToken);
    if byName.None? && byToken.None? {
      CreateConverges(t, digest, p, auth);
    } else {
      SelectionFits(t);
      if DesiredShareMode(t.cr.spec) == ShareMode.Private {
        VanityHeld(t, digest, p, auth);
      } else {
        ConflictStep(t, digest, p, auth);
      }
    }
  }

  lemma SelectionFits(t: St)
    requires Coherent(t)
    ensures DesiredShareMode(t.cr.spec) == ShareMode.Private ==> ReservedName(t.cr.spec) == ""
    ensures DesiredShareMode(t.cr.spec) != ShareMode.Private ==> t.cr.spec.privateShareToken == ""
  {}

  lemma VanityHeld(t: St, digest: string, p: Plan, auth: seq<string>)
    requires Freed(t) && FaultFree(p, auth) && DesiredShareMode(t.cr.spec) == ShareMode.Private
    requires ReservedName(t.cr.spec) == ""
    requires RemoteByToken(t.net.remote, t.cr.spec.privateShareToken).Some?
    ensures Clean(Create(t, digest, p).s)
  {
    hide TargetsEqual, Conditions.Apply, AddShare, TokensIdentify, AgentBacked, AgentTokens, OneHolder;
    hide InvalidSelection;
  }

  lemma ConflictStep(t: St, digest: string, p: Plan, auth: seq<string>)
    requires Freed(t) && FaultFree(p, auth) && DesiredShareMode(t.cr.spec) != ShareMode.Private
    requires RemoteByName(t.net.remote, ReservedName(t.cr.spec)).Some? && t.cr.spec.privateShareToken == ""
    ensures var r := Create(t, digest, p); Converged(r.s, digest) || Clean(r.s)
  {
    hide TargetsEqual, Conditions.Apply, AddShare, Coherent, MarkShareReady, AdoptableAgentShare, Converged, Clean;
    hide ReleaseHolder, MappedAgent;
    var holder := RemoteByName(t.net.remote, ReservedName(t.cr.spec)).value;
    var cls := Classify(t.cr, FullInventory(t.net));
    assert cls == Classified(Some(holder), MappedAgent(t.cr, FullInventory(t.net)), false);
    var adopted := AdoptableAgentShare(t.cr, cls, digest);
    if adopted.Some? {
      AdoptHere(t, t, digest, p, auth);
    } else {
      assert Create(t, digest, p) == ReleaseHolder(t, holder.token, p);
      HolderReleased(t, holder, p, auth);
    }
  }

  lemma HolderReleased(t: St, holder: RemoteShare, p: Plan, auth: seq<string>)
    requires Freed(t) && FaultFree(p, auth) && RemoteByName(t.net.remote, ReservedName(t.cr.spec)) == Some(holder)
    requires t.cr.spec.privateShareToken == ""
    ensures Clean(ReleaseHolder(t, holder.token, p).s)
  {
    hide TargetsEqual, Conditions.Apply, NamespaceToken, Coherent, AnyMatches, NameInPlace;
    var r := ReleaseHolder(t, holder.token, p);
    CoherentToken(t, holder);
    ReleaseFrame(t.net, p.env.zid, holder.token, p.releaseAnswersAgain, p.unshareAgain);
    assert r.s.cr == t.cr && r.s.net.remote == WithoutRemote(t.net.remote, holder.token);
    FewerCoherent(t, r.s, holder.token);
    NameFreed(t, r.s, holder);
    NamesUntouched(t, r.s);
  }

  lemma CoherentToken(t: St, r: RemoteShare)
    requires Coherent(t) && r in t.net.remote
    ensures r.token != ""
  {}

  lemma NamesUntouched(s: St, t: St)
    requires NameInPlace(s) && t.cr == s.cr && t.net.names == s.net.names
    ensures NameInPlace(t)
  {}

  lemma NameFreed(t: St, u: St, holder: RemoteShare)
    requires Coherent(t) && u.cr == t.cr && RemoteByName(t.net.remote, ReservedName(t.cr.spec)) == Some(holder)
    requires u.net.remote == WithoutRemote(t.net.remote, holder.token)
    ensures RemoteByName(u.net.remote, ReservedName(t.cr.spec)).None?
  {
    hide AnyMatches;
  }

  /** Adding the finalizer leaves everything else in place. */
  lemma FinalizerStep(s: St, p: Plan, auth: seq<string>)
    requires Reachable(s) && !s.cr.finalizer && FaultFree(p, auth)
    ensures Reconcile(s, false, p).s == s.(cr := s.cr.(finalizer := true)) && Reachable(Reconcile(s, false, p).s)
  {
    hide Reconcile, ReachableBut, PendingNameFree;
    AddsFinalizer(s, p, auth);
    FinalizerKeepsReach(s);
  }

  // ----- fixpoint -----

  /** The only calls a converged reconcile makes on the outside world: the idempotent name calls. */
  function NameEvents(spec: ShareSpec): seq<Event> {
    if ReservedName(spec) == "" then [] else [CreatedName(WantedKey(spec)), ReservedIt(WantedKey(spec))]
  }

  lemma SettledNames(s: St, p: Plan, digest: string)
    requires p.createName == NoFault && p.reserveName == NoFault && Converged(s, digest)
    ensures Names(s, p) == More(s.(net := s.net.(log := s.net.log + NameEvents(s.cr.spec))))
  {
    hide EnsureReservedName, AgentShareMatchesSpec, ShowsReady, HeldByForeigner, TokensIdentify, AgentBacked;
    hide AgentTokens, OneHolder;
    hide InvalidSelection, TargetsEqual, WantedKey;
    EnsuredOk(s, p);
    var key := WantedKey(s.cr.spec);
    assert ReservedName(s.cr.spec) != "" ==> s.net.names[key := true] == s.net.names;
    assert s.net.log + [] == s.net.log;
  }

  lemma SettledMark(s: St, d: ShareDetail, digest: string, p: Plan)
    requires p.readyLands && p.digestLands && ShowsReady(s.cr, d) && s.cr.appliedDigest == digest
    ensures MarkShareReady(s, d.token, d.frontendEndpoints, digest, p) == Done(s, Requeued)
  {
    hide Marked;
    assert Marked(s.cr, d.token, d.frontendEndpoints, p.now) == s.cr;
  }

  /** A further reconcile of a converged resource releases, unshares, creates and deletes nothing, and leaves the
      resource as it is, down to every transition time. */
  lemma Fixpoint(s: St, p: Plan, auth: seq<string>)
    requires Converged(s, ApplyDigest(s.cr.spec, auth)) && Fits(s, p, auth)
    ensures Reconcile(s, false, p)
         == Done(s.(net := s.net.(log := s.net.log + NameEvents(s.cr.spec))), Requeued)
  {
    hide Reconcile, Names, TakeDown, Create, Coherent, ApplyDigest, AgentShareMatchesSpec, MarkShareReady;
    hide HeldByForeigner, ShowsReady;
    hide UpstreamBarred, MappedRemote, AnyMatches, AgentByToken, AgentByName, NameEvents, WantedKey, InvalidSelection;
    var digest := ApplyDigest(s.cr.spec, auth);
    SettledNames(s, p, digest);
    var named := s.(net := s.net.(log := s.net.log + NameEvents(s.cr.spec)));
    var d := AgentByToken(s.net.agent, s.cr.status.shareToken).value;
    CoherentSelection(s);
    OnePass(s, p, auth);
    assert AdoptableAgentShare(named.cr, Classify(s.cr, FullInventory(s.net)), digest) == Some(d);
    SettledMark(named, d, digest, p);
  }

  lemma CoherentSelection(s: St)
    requires Coherent(s)
    ensures !InvalidSelection(s.cr.spec)
  {}

  // ----- runs -----

  function RunPlans(s: St, plans: seq<Plan>): St {
    if plans == [] then s else Reconcile(RunPlans(s, plans[..|plans| - 1]), false, plans[|plans| - 1]).s
  }

  ghost predicate AllFit(s: St, plans: seq<Plan>, auth: seq<string>) {
    plans == [] || (AllFit(s, plans[..|plans| - 1], auth)
                    && Fits(RunPlans(s, plans[..|plans| - 1]), plans[|plans| - 1], auth))
  }

  ghost predicate OnTrack(s: St, digest: string) {
    Converged(s, digest) || Clean(s) || Reachable(s)
  }

  /** How far there is to go: no finalizer, then something in the way, then nothing in the way, then done. */
  ghost function Distance(s: St, digest: string): nat {
    if Converged(s, digest) then 0 else if Clean(s) then 1 else if s.cr.finalizer then 2 else 3
  }

  lemma Closer(s: St, p: Plan, auth: seq<string>)
    requires OnTrack(s, ApplyDigest(s.cr.spec, auth)) && Fits(s, p, auth)
    ensures var t, digest := Reconcile(s, false, p).s, ApplyDigest(s.cr.spec, auth);
            && t.cr.spec == s.cr.spec && OnTrack(t, digest)
            && (Distance(s, digest) == 0 || Distance(t, digest) < Distance(s, digest))
            && (Distance(s, digest) == 0 ==> Distance(t, digest) == 0)
  {
    hide Reconcile, ApplyDigest, Converged, Clean, Reachable, Fits;
    ReconcileFrame(s, false, p);
    var digest := ApplyDigest(s.cr.spec, auth);
    if Converged(s, digest) {
      Fixpoint(s, p, auth);
      LogDoesNotMatter(s, Reconcile(s, false, p).s, digest);
    } else if Clean(s) {
      CleanStep(s, p, auth);
    } else if s.cr.finalizer {
      MainStep(s, p, auth);
    } else {
      FitsMeans(s, p, auth);
      FinalizerStep(s, p, auth);
    }
  }

  lemma FitsMeans(s: St, p: Plan, auth: seq<string>)
    requires Fits(s, p, auth)
    ensures FaultFree(p, auth)
  {}

  lemma LogDoesNotMatter(s: St, t: St, digest: string)
    requires Converged(s, digest) && t.cr == s.cr && t.net == s.net.(log := t.net.log)
    ensures Converged(t, digest)
  {
    hide AgentShareMatchesSpec, ShowsReady, TargetsEqual, AnyMatches, InvalidSelection;
  }

  /** Three fault-free reconciles, through a missing finalizer and a 409 if need be, make the share ready with a live
      agent share that matches the spec; any number of further ones keep it so. */
  lemma {:induction false} ConvergesWithinThree(s: St, plans: seq<Plan>, auth: seq<string>)
    requires Reachable(s) && AllFit(s, plans, auth)
    ensures var t, digest := RunPlans(s, plans), ApplyDigest(s.cr.spec, auth);
            && t.cr.spec == s.cr.spec && OnTrack(t, digest)
            && Distance(t, digest) <= (if |plans| >= 3 then 0 else 3 - |plans|)
            && (|plans| >= 3 ==> Converged(t, digest))
  {
    hide Reconcile, ApplyDigest, Converged, Clean, Reachable, Fits;
    if plans != [] {
      var earlier := plans[..|plans| - 1];
      ConvergesWithinThree(s, earlier, auth);
      Closer(RunPlans(s, earlier), plans[|plans| - 1], auth);
    }
  }

  /** A new resource is within reach when its spec is valid and nobody holds what it asks for. */
  lemma NewIsReachable(c: ZrokShare, net: Net)
    requires c.status.shareToken == "" && c.reclaimName == "" && Coherent(St(c, net))
    requires RemoteByName(net.remote, ReservedName(c.spec)).None?
    requires RemoteByToken(net.remote, c.spec.privateShareToken).None?
    ensures Reachable(St(c, net))
  {
    hide AnyMatches, TargetsEqual, InvalidSelection, LiveFrontendName;
    var s, name := St(c, net), ReservedName(c.spec);
    forall d | d in net.agent && name != ""
      ensures !AnyMatches(d.frontendEndpoints, name)
    {
      var r :| r in net.remote && r.token == d.token && r.target == d.backendEndpoint
      && r.frontendEndpoints == d.frontendEndpoints;
      assert !AnyMatches(r.frontendEndpoints, name);
    }
    assert ReleaseTarget(c, Classify(c, FullInventory(net))).None?;
  }

  // ----- a recorded name in other hands -----

  /** The names are in order exactly when the recorded one is not in use. */
  lemma NamesPassExactly(s: St, p: Plan, auth: seq<string>)
    requires FaultFree(p, auth) && Coherent(s)
    ensures Names(s, p).More? <==> PendingNameFree(s)
    ensures !PendingNameFree(s) ==>
              var r := Names(s, p);
              && r.s.cr == s.cr && r.s.net.remote == s.net.remote && r.s.net.agent == s.net.agent
              && r.s.net.taken == s.net.taken
              && r.verdict == Requeued
              && forall key :: key in r.s.net.names ==>
                   key in s.net.names || (key == WantedKey(s.cr.spec) && ReservedName(s.cr.spec) != "")
    ensures !PendingNameFree(s) ==> forall key :: key in s.net.names ==> key in Names(s, p).s.net.names
  {
    hide EnsureReservedName, TokensIdentify, AgentBacked, AgentTokens, OneHolder, InvalidSelection, RemoteByName;
    EnsuredOk(s, p);
  }

  /** A fault-free reconcile of a resource whose recorded name another share is served under changes nothing but the
      wanted name, which it makes sure of. */
  lemma BlockedStep(s: St, p: Plan, auth: seq<string>)
    requires Fits(s, p, auth) && s.cr.finalizer && ReachableBut(s) && !PendingNameFree(s)
    ensures var t := Reconcile(s, false, p).s;
            && t.cr == s.cr && t.net.remote == s.net.remote && t.net.agent == s.net.agent
            && ReachableBut(t) && !PendingNameFree(t)
  {
    hide Reconcile, Names, TargetsEqual, FaultFree, InvalidSelection, Coherent, HeldByForeigner, VanityWithinReach;
    hide OldNameFree;
    hide PendingNameFree, Converge, ApplyDigest, UpstreamBarred;
    FitsMeans(s, p, auth);
    CoherentSelection(s);
    NamesPassExactly(s, p, auth);
    BlockedEnds(s, p, auth);
    var t := Names(s, p).s;
    NamespacesKept(s);
    NamedCoherent(s, t);
    SameReach(s, t);
    StillPending(s, t);
  }

  lemma NamespacesKept(s: St)
    requires Coherent(s)
    ensures forall key :: key in s.net.names || (key == WantedKey(s.cr.spec) && ReservedName(s.cr.spec) != "") ==>
              key.namespace != ""
  {
    hide InvalidSelection, TokensIdentify, AgentBacked, AgentTokens, OneHolder;
  }

  lemma BlockedEnds(s: St, p: Plan, auth: seq<string>)
    requires Fits(s, p, auth) && s.cr.finalizer && !InvalidSelection(s.cr.spec) && Names(s, p).Done?
    requires !HeldByForeigner(s.cr, FullInventory(s.net))
    ensures Reconcile(s, false, p) == Names(s, p)
  {
    hide Admit, Names, TakeDown, Create, MarkShareReady, HeldByForeigner, MappedAgent, MappedRemote;
    hide AdoptableAgentShare;
    hide ApplyDigest, InvalidSelection, UpstreamBarred;
    Admitted(s, p, auth);
  }

  lemma SameReach(s: St, t: St)
    requires ReachableBut(s) && Coherent(t) && t.cr == s.cr && t.net.remote == s.net.remote
    requires t.net.agent == s.net.agent
    ensures ReachableBut(t)
  {
    hide Coherent, TargetsEqual, AnyMatches;
  }

  lemma StillPending(s: St, t: St)
    requires !PendingNameFree(s) && t.cr == s.cr && t.net.remote == s.net.remote && t.net.taken == s.net.taken
    requires forall key :: key in s.net.names ==> key in t.net.names
    ensures !PendingNameFree(t)
  {}

  lemma FinalizerKeepsBlocked(s: St, p: Plan, auth: seq<string>)
    requires ReachableBut(s) && !PendingNameFree(s) && !s.cr.finalizer && FaultFree(p, auth)
    ensures var t := Reconcile(s, false, p).s;
            && t == s.(cr := s.cr.(finalizer := true)) && ReachableBut(t) && !PendingNameFree(t)
  {
    hide Reconcile, ReachableBut, PendingNameFree;
    AddsFinalizer(s, p, auth);
    FinalizerKeepsReach(s);
  }

  lemma AddsFinalizer(s: St, p: Plan, auth: seq<string>)
    requires !s.cr.finalizer && FaultFree(p, auth)
    ensures Reconcile(s, false, p).s == s.(cr := s.cr.(finalizer := true))
  {
    hide ApplyDigest, Converge;
  }

  lemma FinalizerKeepsReach(s: St)
    requires ReachableBut(s)
    ensures var t := s.(cr := s.cr.(finalizer := true)); ReachableBut(t) && (PendingNameFree(s) <==> PendingNameFree(t))
  {
    hide TargetsEqual, TokensIdentify, AgentBacked, AgentTokens, OneHolder, InvalidSelection;
    var t := s.(cr := s.cr.(finalizer := true));
    assert Classify(t.cr, FullInventory(t.net)) == Classify(s.cr, FullInventory(s.net));
  }

  /** Any number of fault-free reconciles: annotation, status and shares stay what they are. */
  lemma {:induction false} StaysBlocked(s: St, plans: seq<Plan>, auth: seq<string>)
    requires ReachableBut(s) && !PendingNameFree(s) && AllFit(s, plans, auth)
    ensures var t := RunPlans(s, plans);
            && ReachableBut(t) && !PendingNameFree(t) && t.cr == s.cr.(finalizer := t.cr.finalizer)
            && t.net.remote == s.net.remote && t.net.agent == s.net.agent
  {
    hide Reconcile, Fits, ReachableBut, PendingNameFree;
    if plans != [] {
      var earlier, p := plans[..|plans| - 1], plans[|plans| - 1];
      StaysBlocked(s, earlier, auth);
      var t := RunPlans(s, earlier);
      if t.cr.finalizer {
        BlockedStep(t, p, auth);
      } else {
        FitsMeans(t, p, auth);
        FinalizerKeepsBlocked(t, p, auth);
      }
    }
  }

  lemma BlockedNotConverged(s: St, digest: string)
    requires !PendingNameFree(s)
    ensures !Converged(s, digest)
  {
    hide Coherent, HeldByForeigner, AgentShareMatchesSpec, ShowsReady;
  }

  /** With nothing else in the way, fault-free reconciles reach the converged state, in three steps, exactly when no
      other share is served under the name recorded for reclaim; as long as one is, they never do. */
  lemma ConvergesExactly(s: St, plans: seq<Plan>, auth: seq<string>)
    requires ReachableBut(s) && AllFit(s, plans, auth) && |plans| >= 3
    ensures Converged(RunPlans(s, plans), ApplyDigest(s.cr.spec, auth)) <==> PendingNameFree(s)
  {
    hide RunPlans, AllFit, ReachableBut, PendingNameFree, Converged, ApplyDigest, OnTrack;
    if PendingNameFree(s) {
      ConvergesWithinThree(s, plans, auth);
    } else {
      StaysBlocked(s, plans, auth);
      BlockedNotConverged(RunPlans(s, plans), ApplyDigest(s.cr.spec, auth));
    }
  }

  /** What Converged promises, in the terms a user sees. */
  lemma ConvergedMeansReady(s: St, digest: string)
    requires Converged(s, digest)
    ensures Conditions.IsTrue(s.cr.status.conditions, Conditions.Kind.Ready) && s.cr.appliedDigest == digest
    ensures exists d :: d in s.net.agent && d.token == s.cr.status.shareToken && AgentShareMatchesSpec(s.cr, d)
  {
    hide AgentShareMatchesSpec, Coherent, HeldByForeigner, ReadyConditions;
    var d := AgentByToken(s.net.agent, s.cr.status.shareToken).value;
    ShownReady(s.cr, d);
  }

  lemma ShownReady(c: ZrokShare, d: ShareDetail)
    requires ShowsReady(c, d)
    ensures Conditions.IsTrue(c.status.conditions, Conditions.Kind.Ready)
  {
    hide Conditions.Apply;
    assert Marked(c, d.token, d.frontendEndpoints, 0) == c;
    var u := ReadyUpdates(c, 0);
    var before := Conditions.Apply(Conditions.Apply(Conditions.Apply(c.status.conditions, u[0]), u[1]), u[2]);
    Conditions.ApplyLookup(before, u[3], Conditions.Kind.Ready);
  }
}
