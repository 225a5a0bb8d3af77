/** What has to be in order before a reconcile makes its first call outside the cluster. */
module Gates {
  import Conditions
  import opened Digest
  import opened Inventory
  import NoLeak
  import opened Options
  import opened ShareFrames
  import opened Shares
  import opened ShareSteps
  import opened ShareWorld
  import opened Strings
  import opened Targets
  import opened Upstream
  import opened Zrok

  /** Not to be shared where upstreams are restricted: no URL with one of the four schemes and a host that names a
      Service of the resource's own namespace, or the backend that forwards anywhere. */
  predicate Disallowed(id: Id, spec: ShareSpec) {
    var url := Parse(spec.upstream);
    || url.None?
    || url.value.scheme !in ["http", "https", "tcp", "udp"]
    || !ServiceHost(ToLower(Hostname(url.value.host)), ToLower(id.namespace))
    || spec.backendMode == "socks"
  }

  /** A name goes with public shares, a vanity token with private ones; unset means public. */
  predicate Mismatched(spec: ShareSpec) {
    || (spec.shareMode == ShareMode.Private && spec.nameSelection.Some?)
    || (spec.shareMode in {DefaultMode, Public} && spec.privateShareToken != "")
  }

  predicate Named(spec: ShareSpec) {
    spec.nameSelection.Some? && spec.nameSelection.value.name != ""
  }

  /** Everything a reconcile needs to know is known, and speaks for it. */
  predicate Admitted(s: St, rival: bool, p: Plan) {
    && s.cr.finalizer && !Mismatched(s.cr.spec) && (p.restrictUpstream ==> !Disallowed(s.cr.id, s.cr.spec))
    && p.env.Env? && p.env.ready && p.env.credential == Token && p.basicAuth.Some?
    && (Named(s.cr.spec) ==> p.resourcesListed && !rival)
  }

  lemma BarredExactly(c: ZrokShare)
    requires IsDNSLabel(ToLower(c.id.namespace))
    ensures UpstreamBarred(c) || c.spec.backendMode == SOCKS <==> Disallowed(c.id, c.spec)
  {
    hide Parse, ServiceHost, Judge;
    AllowedExactly(c.spec.upstream, c.id.namespace);
  }

  lemma AdmitExactly(s: St, rival: bool, p: Plan)
    requires IsDNSLabel(ToLower(s.cr.id.namespace))
    ensures Admit(s, rival, p).More? <==> Admitted(s, rival, p)
  {
    hide UpstreamBarred, Disallowed, NotReady, NameNotReady, WaitingForEnvironment;
    BarredExactly(s.cr);
  }

  /** Unless all of that is in order no call leaves the cluster, and the bound share, the digest and the recorded name
      stay; otherwise the reconcile goes on to the inventory, with the state as it was. */
  lemma NothingLeavesUnlessAdmitted(s: St, rival: bool, p: Plan)
    requires IsDNSLabel(ToLower(s.cr.id.namespace))
    ensures var t := Reconcile(s, rival, p).s;
            if Admitted(s, rival, p)
               then Reconcile(s, rival, p) == Converge(s, ApplyDigest(s.cr.spec, p.basicAuth.value), p)
            else t.net == s.net && SameResource(s.cr, t.cr) && SameBinding(s.cr, t.cr)
                 && t.cr.reclaimName == s.cr.reclaimName
  {
    hide Admit, Converge, ApplyDigest, Admitted;
    AdmitFrame(s, rival, p);
    AdmitExactly(s, rival, p);
  }

  /** A restricted upstream is never shared: whatever it is that bars it. */
  lemma BarredUpstreamMakesNoCall(s: St, rival: bool, p: Plan)
    requires IsDNSLabel(ToLower(s.cr.id.namespace)) && p.restrictUpstream && Disallowed(s.cr.id, s.cr.spec)
    ensures var t := Reconcile(s, rival, p).s; t.net == s.net && SameBinding(s.cr, t.cr)
  {
    hide Reconcile, Disallowed, SameBinding, SameResource;
    NothingLeavesUnlessAdmitted(s, rival, p);
  }

  // ----- what the user is told -----

  /** What status has to say, in the order in which the questions are asked; None where the reconcile just fails. */
  function Obstacle(s: St, rival: bool, p: Plan): Option<Conditions.Reason> {
    if Mismatched(s.cr.spec) then Some(Conditions.Reason.InvalidSpec)
    else if p.restrictUpstream && Disallowed(s.cr.id, s.cr.spec.(backendMode := "")) then
      Some(Conditions.Reason.UpstreamNotAllowed)
    else if p.restrictUpstream && s.cr.spec.backendMode == "socks" then Some(Conditions.Reason.BackendModeNotAllowed)
    else if p.env.EnvMissing? then Some(Conditions.Reason.EnvironmentMissing)
    else if p.env.EnvUnreadable? then None
    else if !p.env.ready then Some(Conditions.Reason.WaitingForEnvironment)
    else if p.env.credential != Token then Some(Conditions.Reason.SecretError)
    else if p.basicAuth.None? then Some(Conditions.Reason.BasicAuthError)
    else if Named(s.cr.spec) && !p.resourcesListed then None
    else Some(Conditions.Reason.NameConflict)
  }

  predicate Tells(c: ZrokShare, reason: Conditions.Reason) {
    && c.status.observedGeneration == c.generation
    && !Conditions.IsTrue(c.status.conditions, Conditions.Kind.Ready)
    && Conditions.ReasonOf(c.status.conditions, Conditions.Kind.Ready) == reason
  }

  lemma NotReadyTells(c: ZrokShare, reason: Conditions.Reason, message: string, now: int)
    ensures Tells(NotReady(c, reason, message, now), reason)
  {
    hide Conditions.Apply, Conditions.Lookup;
    Conditions.ApplyLookup(c.status.conditions,
                           Conditions.Update(Conditions.Kind.Ready, Conditions.False, reason, message, c.generation,
                                             now),
                           Conditions.Kind.Ready);
  }

  lemma OthersTell(c: ZrokShare, message: string, now: int)
    ensures Tells(WaitingForEnvironment(c, now), Conditions.Reason.WaitingForEnvironment)
    ensures Tells(NameNotReady(c, Conditions.Reason.NameConflict, message, now), Conditions.Reason.NameConflict)
  {
    hide Conditions.Apply, NotReady, Tells;
    var waiting := Conditions.Apply(c.status.conditions,
                                    Conditions.Update(Conditions.Kind.EnvironmentReady, Conditions.False,
                                                      Conditions.Reason.Waiting, "", c.generation, now));
    var unnamed := Conditions.Apply(c.status.conditions,
                                    Conditions.Update(Conditions.Kind.NameReady, Conditions.False,
                                                      Conditions.Reason.NameConflict, message, c.generation, now));
    NotReadyTells(c.(status := c.status.(conditions := waiting)), Conditions.Reason.WaitingForEnvironment, "", now);
    NotReadyTells(c.(status := c.status.(conditions := unnamed)), Conditions.Reason.NameConflict, message, now);
  }

  lemma BarredApart(c: ZrokShare)
    requires IsDNSLabel(ToLower(c.id.namespace))
    ensures UpstreamBarred(c) <==> Disallowed(c.id, c.spec.(backendMode := ""))
  {
    hide Parse, ServiceHost, Judge;
    AllowedExactly(c.spec.upstream, c.id.namespace);
  }

  /** A resource with its finalizer in place that is not admitted is told the first obstacle; where a read failed that
      might succeed the next time nothing is written and the reconcile fails. */
  lemma FirstObstacleTold(s: St, rival: bool, p: Plan)
    requires IsDNSLabel(ToLower(s.cr.id.namespace)) && s.cr.finalizer && !Admitted(s, rival, p) && p.noteLands
    ensures var r, told := Reconcile(s, rival, p), Obstacle(s, rival, p);
            if told.Some? then Tells(r.s.cr, told.value) else r == Done(s, Errored)
  {
    hide UpstreamBarred, Disallowed, NotReady, NameNotReady, WaitingForEnvironment, Converge, ApplyDigest, Tells;
    BarredExactly(s.cr);
    BarredApart(s.cr);
    OthersTell(s.cr, "", p.now);
    NotReadyTells(s.cr, Conditions.Reason.InvalidSpec, "", p.now);
    NotReadyTells(s.cr, Conditions.Reason.UpstreamNotAllowed, p.errText, p.now);
    NotReadyTells(s.cr, Conditions.Reason.BackendModeNotAllowed, "", p.now);
    NotReadyTells(s.cr, Conditions.Reason.EnvironmentMissing, p.errText, p.now);
    NotReadyTells(s.cr, Conditions.Reason.SecretError, p.errText, p.now);
    NotReadyTells(s.cr, Conditions.Reason.BasicAuthError, p.errText, p.now);
  }

  // ----- who comes back -----

  lemma ConvergeComesBack(s: St, digest: string, p: Plan)
    requires p.env.Env?
    ensures var r := Converge(s, digest, p); r.Done? && r.verdict != Settled
  {
    hide Survey, Names, TakeDown, Create, MarkShareReady, Classify, AdoptableAgentShare, LoadInventory;
    var cls := Classify(s.cr, LoadInventory(s.net, p.env.zid, p.remoteListed, p.agentAnswers));
    SurveyComesBack(s, cls, digest, p);
    NamesComeBack(s, p);
    var named := Names(s, p);
    MarkComesBack(named.s, digest, p);
    TakeDownComesBack(named.s, cls, p);
    CreateComesBack(TakeDown(named.s, cls, p).s, digest, p);
  }

  lemma MarkComesBack(s: St, digest: string, p: Plan)
    ensures forall token, endpoints ::
              MarkShareReady(s, token, endpoints, digest, p).Done?
              && MarkShareReady(s, token, endpoints, digest, p).verdict != Settled
  {
    hide Marked;
  }

  lemma SurveyComesBack(s: St, cls: Classified, digest: string, p: Plan)
    requires p.env.Env?
    ensures var r := Survey(s, cls, digest, p); r.Done? ==> r.verdict != Settled
  {
    hide MarkShareReady, AdoptableAgentShare;
    MarkComesBack(s, digest, p);
  }

  lemma FlushComesBack(s: St, fault: Fault, lands: bool)
    ensures var r := FlushReclaimName(s, fault, lands); r.Done? ==> r.verdict != Settled
  {
    hide DeleteReply, NamespaceToken, ReservedName;
  }

  lemma NamesComeBack(s: St, p: Plan)
    ensures var r := Names(s, p); r.Done? ==> r.verdict != Settled
  {
    hide FlushReclaimName, NamespaceToken, ReservedName, NameNotReady;
    FlushComesBack(EnsureReservedName(s, p).s, p.flush, p.flushLands);
  }

  lemma TakeDownComesBack(s: St, cls: Classified, p: Plan)
    requires p.env.Env?
    ensures var r := TakeDown(s, cls, p); r.Done? ==> r.verdict != Settled
  {
    hide FlushReclaimName, NotReady, Cleared, ReleaseOurs, LiveFrontendName, ReleaseTarget;
    var target := ReleaseTarget(s.cr, cls);
    if target.Some? && ReleaseAndClear(s, target.value, p).More? {
      var released := ReleaseAndClear(s, target.value, p).s;
      var oldName := LiveFrontendName(s.cr, cls);
      FlushComesBack(St(released.cr.(reclaimName := oldName),
                        released.net.(log := released.net.log + [RecordedReclaim(oldName)])),
                     p.reclaim, p.reclaimLands);
    }
  }

  lemma CreateComesBack(s: St, digest: string, p: Plan)
    requires p.env.Env?
    ensures var r := Create(s, digest, p); r.Done? && r.verdict != Settled
  {
    hide MarkShareReady, EndNotReady, HandleShareConflict, SharePrivate, SharePublic;
    MarkComesBack(s.(net := SharePrivate(s.net, s.cr.id, s.cr.spec, p.share, p.newToken).net), digest, p);
    MarkComesBack(s.(net := SharePublic(s.net, s.cr.id, s.cr.spec, p.share, p.newToken, p.newEndpoints).net), digest,
                  p);
    ErrorComesBack(s.(net := SharePrivate(s.net, s.cr.id, s.cr.spec, p.share, p.newToken).net), p);
    ErrorComesBack(s.(net := SharePublic(s.net, s.cr.id, s.cr.spec, p.share, p.newToken, p.newEndpoints).net), p);
    ConflictComesBack(s.(net := SharePublic(s.net, s.cr.id, s.cr.spec, p.share, p.newToken, p.newEndpoints).net),
                      digest, p);
  }

  lemma ErrorComesBack(s: St, p: Plan)
    ensures EndNotReady(s, Conditions.Reason.ShareError, p.errText, p, Errored).Done?
    ensures EndNotReady(s, Conditions.Reason.ShareError, p.errText, p, Errored).verdict == Errored
  {
    hide NotReady;
  }

  lemma ConflictComesBack(s: St, digest: string, p: Plan)
    requires p.env.Env?
    ensures var r := HandleShareConflict(s, digest, p); r.Done? && r.verdict != Settled
  {
    hide MarkShareReady, NotReady, NameNotReady, Classify, AdoptableAgentShare, ConflictTarget, ReleaseOurs;
    hide LoadInventory;
    MarkComesBack(s, digest, p);
  }

  predicate IsLast(r: Flow) {
    r.Done? && r.verdict == Settled
  }

  /** A reconcile does not ask to come back only when it just added the finalizer, whose write brings the resource
      back, or when nothing but an edit of the spec can help. */
  lemma LastExactly(s: St, rival: bool, p: Plan)
    requires IsDNSLabel(ToLower(s.cr.id.namespace))
    ensures IsLast(Reconcile(s, rival, p))
       <==> if s.cr.finalizer then Mismatched(s.cr.spec) || (p.restrictUpstream && Disallowed(s.cr.id, s.cr.spec))
            else p.finalizerLands
  {
    hide Converge, ApplyDigest, Disallowed, Mismatched, Admitted, Admit, IsDNSLabel;
    AdmitExactly(s, rival, p);
    AdmitLast(s, rival, p);
    AdmitFrame(s, rival, p);
    if Admit(s, rival, p).More? {
      AdmittedMeans(s, rival, p);
      ConvergeComesBack(s, ApplyDigest(s.cr.spec, p.basicAuth.value), p);
    }
  }

  lemma AdmittedMeans(s: St, rival: bool, p: Plan)
    requires Admitted(s, rival, p)
    ensures s.cr.finalizer && !Mismatched(s.cr.spec) && (p.restrictUpstream ==> !Disallowed(s.cr.id, s.cr.spec))
    ensures p.env.Env? && p.basicAuth.Some?
  {
    hide Disallowed, Mismatched;
  }

  lemma AdmitLast(s: St, rival: bool, p: Plan)
    requires IsDNSLabel(ToLower(s.cr.id.namespace))
    ensures var r := Admit(s, rival, p);
            r.Done? ==>
              (IsLast(r)
               <==> if s.cr.finalizer
                    then Mismatched(s.cr.spec) || (p.restrictUpstream && Disallowed(s.cr.id, s.cr.spec))
                    else p.finalizerLands)
  {
    hide UpstreamBarred, Disallowed, NotReady, NameNotReady, WaitingForEnvironment, IsDNSLabel;
    BarredExactly(s.cr);
  }

  /** A deletion does not come back exactly when the finalizer is gone. */
  lemma DeletionLastExactly(s: St, rival: bool, p: Plan)
    ensures IsLast(ReconcileDelete(s, rival, p)) <==> !ReconcileDelete(s, rival, p).s.cr.finalizer
  {
    hide DeleteShare, DeleteName, DeletionToken, LoadInventory, AttachedHolder, IsOurShareToken;
    var inv := DeletionInventory(s, p);
    var claimed := ReservedName(s.cr.spec) != "" && p.resourcesListed && rival;
    var token := DeletionToken(s.cr, claimed, inv);
    DeleteShareFrame(s, token, inv, p);
    DeletionStagesComeBack(s, token, claimed, inv, p);
    var unshared := DeleteShare(s, token, inv, p);
    DeletionStagesComeBack(unshared.s, token, claimed, inv, p);
    DeleteNameFrame(unshared.s, claimed, inv, p);
  }

  lemma DeletionStagesComeBack(s: St, token: string, claimed: bool, inv: Inventory, p: Plan)
    ensures !IsLast(DeleteShare(s, token, inv, p)) && !IsLast(DeleteName(s, claimed, inv, p))
  {
    hide IsOurShareToken, DeleteReply, NamespaceToken, ReservedName, Cleared, DetachHolder;
  }

  // ----- whole runs -----

  /** Whatever is submitted or edited under `id` is disallowed, and its reconciles run where
      upstreams are restricted. */
  predicate KeptBarred(a: Action, id: Id) {
    match a
    case Run(i, p) => i == id ==> p.restrictUpstream
    case Submit(i, spec) => i == id ==> Disallowed(id, spec)
    case Edit(i, spec) => i == id ==> Disallowed(id, spec)
    case _ => true
  }

  ghost predicate NeverServed(w: World, id: Id) {
    && (forall token :: token in w.net.owner ==> w.net.owner[token] != id)
    && (forall i :: i in w.crs ==> w.crs[i].id == i)
    && (id in w.crs ==> Disallowed(id, w.crs[id].spec) && w.crs[id].status.shareToken == "")
  }

  lemma ActionKeepsBarred(w: World, a: Action, id: Id)
    requires NeverServed(w, id) && KeptBarred(a, id) && IsDNSLabel(ToLower(id.namespace))
    ensures NeverServed(Step(w, a), id)
  {
    hide Disallowed, Reconcile, ReconcileDelete, IsDNSLabel, Rival;
    if a.Run? && a.id in w.crs {
      var s, p := St(w.crs[a.id], w.net), a.plan;
      var rival := Rival(w.crs, a.id);
      if s.cr.deleting {
        DeletionAddsNone(s, rival, p);
      } else {
        NoLeak.ReconcileOnlyAdds(s, rival, p);
        ReconcileFrame(s, rival, p);
        if a.id == id {
          BarredUpstreamMakesNoCall(s, rival, p);
        }
      }
    }
  }

  lemma DeletionAddsNone(s: St, rival: bool, p: Plan)
    ensures var t := ReconcileDelete(s, rival, p).s;
            && t.net.owner == s.net.owner && SameResource(s.cr, t.cr)
            && (t.cr.status.shareToken == s.cr.status.shareToken || t.cr.status.shareToken == "")
  {
    hide DeleteShare, DeleteName, DeletionToken, LoadInventory, AttachedHolder, IsOurShareToken;
    var inv := DeletionInventory(s, p);
    var claimed := ReservedName(s.cr.spec) != "" && p.resourcesListed && rival;
    var token := DeletionToken(s.cr, claimed, inv);
    DeleteShareFrame(s, token, inv, p);
    DeleteNameFrame(DeleteShare(s, token, inv, p).s, claimed, inv, p);
  }

  /** In any run, whatever else fails or is edited, a resource whose upstream is never allowed never gets a share. */
  lemma {:induction false} BarredNeverShared(w: World, actions: seq<Action>, id: Id)
    requires w.crs == map[] && w.net.owner == map[] && IsDNSLabel(ToLower(id.namespace))
    requires forall i :: 0 <= i < |actions| ==> KeptBarred(actions[i], id)
    ensures NeverServed(After(w, actions), id)
  {
    hide Step, KeptBarred, Disallowed, IsDNSLabel;
    if actions != [] {
      BarredNeverShared(w, actions[..|actions| - 1], id);
      ActionKeepsBarred(After(w, actions[..|actions| - 1]), actions[|actions| - 1], id);
    }
  }
}
