/** A share that reports Ready has a token, and its other conditions say so too. */
module ReadyStatus {
  import opened Options
  import opened Conditions
  import opened Digest
  import opened Inventory
  import opened ShareFrames
  import opened Shares
  import opened ShareSteps
  import opened ShareWorld
  import opened Targets
  import opened Zrok

  /** Ready comes with a token and the other conditions; a status without a token has no URL and no endpoints either. */
  predicate ReadyIsBacked(c: ZrokShare) {
    && (IsTrue(c.status.conditions, Kind.Ready) ==>
          && c.status.shareToken != ""
          && IsTrue(c.status.conditions, Kind.EnvironmentReady)
          && IsTrue(c.status.conditions, Kind.ShareCreated)
          && IsTrue(c.status.conditions, Kind.NameReady))
    && Tidy(c)
  }

  predicate Tidy(c: ZrokShare) {
    c.status.shareToken == "" ==> c.status.assignedURL == "" && c.status.frontendEndpoints == []
  }

  lemma BackedIsTidy(c: ZrokShare)
    ensures ReadyIsBacked(c) ==> Tidy(c)
  {}

  ghost predicate AgentNamed(net: Net) {
    forall d :: d in net.agent ==> d.token != ""
  }

  // ----- status patches -----

  lemma UnreadyBacked(c: ZrokShare, conditions: seq<Condition>, u: Update)
    requires u.kind == Kind.Ready && u.status == False && c.status.conditions == Apply(conditions, u) && Tidy(c)
    ensures ReadyIsBacked(c)
  {
    ApplyLookup(conditions, u, Kind.Ready);
  }

  lemma NotReadyBacked(c: ZrokShare, reason: Reason, message: string, now: int)
    requires Tidy(c)
    ensures ReadyIsBacked(NotReady(c, reason, message, now))
  {
    hide Apply, ReadyIsBacked;
    UnreadyBacked(NotReady(c, reason, message, now), c.status.conditions,
                  Update(Kind.Ready, False, reason, message, c.generation, now));
  }

  lemma NameNotReadyBacked(c: ZrokShare, reason: Reason, message: string, now: int)
    requires Tidy(c)
    ensures ReadyIsBacked(NameNotReady(c, reason, message, now))
  {
    hide Apply, NotReady, ReadyIsBacked;
    var unnamed := Apply(c.status.conditions, Update(Kind.NameReady, False, reason, message, c.generation, now));
    NotReadyBacked(c.(status := c.status.(conditions := unnamed)), reason, message, now);
  }

  lemma WaitingBacked(c: ZrokShare, now: int)
    requires Tidy(c)
    ensures ReadyIsBacked(ShareSteps.WaitingForEnvironment(c, now))
  {
    hide Apply, NotReady, ReadyIsBacked;
    var waiting := Apply(c.status.conditions,
                         Update(Kind.EnvironmentReady, False, Reason.Waiting, "", c.generation, now));
    NotReadyBacked(c.(status := c.status.(conditions := waiting)), Reason.WaitingForEnvironment, "", now);
  }

  lemma ClearedBacked(c: ZrokShare, now: int)
    requires ReadyIsBacked(c)
    ensures ReadyIsBacked(Cleared(c, now))
  {
    hide Apply, ReadyIsBacked;
    if Cleared(c, now) != c {
      UnreadyBacked(Cleared(c, now), c.status.conditions,
                    Update(Kind.Ready, False, Reason.Healing, "", c.generation, now));
    }
  }

  lemma TrueAfter(conditions: seq<Condition>, u: Update, kind: Kind)
    requires u.status == True && (u.kind == kind || IsTrue(conditions, kind))
    ensures IsTrue(Apply(conditions, u), kind)
  {
    ApplyLookup(conditions, u, kind);
  }

  lemma MarkedBacked(c: ZrokShare, token: string, endpoints: seq<string>, now: int)
    requires token != ""
    ensures ReadyIsBacked(Marked(c, token, endpoints, now))
  {
    hide Apply, IsTrue, AssignedURL, ReservationOf, NameReason;
    var u := ReadyUpdates(c, now);
    var first := Apply(c.status.conditions, u[0]);
    var second := Apply(first, u[1]);
    var third := Apply(second, u[2]);
    TrueAfter(c.status.conditions, u[0], Kind.NameReady);
    TrueAfter(first, u[1], Kind.NameReady);
    TrueAfter(second, u[2], Kind.NameReady);
    TrueAfter(third, u[3], Kind.NameReady);
    TrueAfter(first, u[1], Kind.EnvironmentReady);
    TrueAfter(second, u[2], Kind.EnvironmentReady);
    TrueAfter(third, u[3], Kind.EnvironmentReady);
    TrueAfter(second, u[2], Kind.ShareCreated);
    TrueAfter(third, u[3], Kind.ShareCreated);
  }

  // ----- stages -----

  /** The stage ends in a state whose status is sound and whose agent shares have tokens. */
  ghost predicate Sound(s: St) {
    ReadyIsBacked(s.cr) && AgentNamed(s.net)
  }

  lemma SameStatusBacked(c: ZrokShare, d: ZrokShare)
    requires ReadyIsBacked(c) && d.status == c.status
    ensures ReadyIsBacked(d)
  {}

  lemma EndSound(s: St, reason: Reason, message: string, p: Plan, verdict: Verdict)
    requires Sound(s)
    ensures Sound(EndNotReady(s, reason, message, p, verdict).s) && Sound(EndNameConflict(s, p).s)
  {
    hide NotReady, NameNotReady, ReadyIsBacked;
    BackedIsTidy(s.cr);
    NotReadyBacked(s.cr, reason, message, p.now);
    NameNotReadyBacked(s.cr, Reason.NameConflict, "", p.now);
  }

  lemma MarkSound(s: St, token: string, endpoints: seq<string>, digest: string, p: Plan)
    requires Sound(s) && token != ""
    ensures Sound(MarkShareReady(s, token, endpoints, digest, p).s)
  {
    hide Marked, ReadyIsBacked;
    var marked := Marked(s.cr, token, endpoints, p.now);
    MarkedBacked(s.cr, token, endpoints, p.now);
    SameStatusBacked(marked, marked.(appliedDigest := digest));
  }

  lemma AdmitSound(s: St, rival: bool, p: Plan)
    requires Sound(s)
    ensures Sound(Admit(s, rival, p).s)
  {
    hide UpstreamBarred, InvalidSelection, EndNotReady, EndNameConflict, ShareSteps.WaitingForEnvironment;
    hide ReadyIsBacked, ReservedName;
    EndSound(s, Reason.InvalidSpec, "", p, Settled);
    EndSound(s, Reason.UpstreamNotAllowed, p.errText, p, Settled);
    EndSound(s, Reason.BackendModeNotAllowed, "", p, Settled);
    EndSound(s, Reason.EnvironmentMissing, p.errText, p, Requeued);
    EndSound(s, Reason.SecretError, p.errText, p, Errored);
    EndSound(s, Reason.BasicAuthError, p.errText, p, Errored);
    BackedIsTidy(s.cr);
    WaitingBacked(s.cr, p.now);
    SameStatusBacked(s.cr, s.cr.(finalizer := true));
  }

  /** What is mapped, and so what can be adopted, is an agent share of the inventory. */
  lemma AdoptedNamed(c: ZrokShare, d: ZrokShare, inv: Inventory, digest: string)
    requires forall e :: e in inv.agent ==> e.token != ""
    ensures var adopted := AdoptableAgentShare(c, Classify(d, inv), digest); adopted.Some? ==> adopted.value.token != ""
  {
    hide AgentShareMatchesSpec, ShareDigestDrifted, HeldByForeigner, MappedRemote, AnyMatches;
  }

  lemma SurveySound(s: St, inv: Inventory, digest: string, p: Plan)
    requires p.env.Env? && Sound(s) && forall e :: e in inv.agent ==> e in s.net.agent
    ensures Sound(Survey(s, Classify(s.cr, inv), digest, p).s)
  {
    hide Classify, AdoptableAgentShare, MarkShareReady, EndNotReady, EndNameConflict, ReadyIsBacked;
    AdoptedNamed(s.cr, s.cr, inv, digest);
    var adopted := AdoptableAgentShare(s.cr, Classify(s.cr, inv), digest);
    if adopted.Some? {
      MarkSound(s, adopted.value.token, adopted.value.frontendEndpoints, digest, p);
    }
    EndSound(s, Reason.InventoryError, p.errText, p, Errored);
  }

  lemma RefusedSound(s: St, reply: Reply, p: Plan)
    requires Sound(s)
    ensures Sound(NameRefused(s, reply, p).s)
  {
    hide EndNameConflict, ReadyIsBacked;
    EndSound(s, Reason.Unset, "", p, Errored);
  }

  lemma UnnamedSound(s: St, t: St, reason: Reason, reply: Reply, p: Plan)
    requires Sound(s) && t.cr == s.cr && t.net.agent == s.net.agent
    ensures Sound(NameRefused(Noted(t, p.noteLands, NameNotReady(t.cr, reason, p.errText, p.now)), reply, p).s)
    ensures Sound(NameRefused(t, reply, p).s)
  {
    hide NameNotReady, ReadyIsBacked, NameRefused;
    BackedIsTidy(s.cr);
    NameNotReadyBacked(t.cr, reason, p.errText, p.now);
    RefusedSound(t, reply, p);
    RefusedSound(Noted(t, p.noteLands, NameNotReady(t.cr, reason, p.errText, p.now)), reply, p);
  }

  lemma PromoteSound(s: St, p: Plan)
    requires Sound(s)
    ensures Sound(PromoteName(s, p).s)
  {
    hide NameNotReady, NameRefused, ReadyIsBacked, ReservedName, NamespaceToken;
    var reserved := UpdateShareName(s.net, WantedKey(s.cr.spec), p.reserveName);
    UnnamedSound(s, s.(net := reserved.net), Reason.ReserveError, reserved.reply, p);
  }

  lemma EnsureSound(s: St, p: Plan)
    requires Sound(s)
    ensures Sound(EnsureReservedName(s, p).s)
  {
    hide NameNotReady, NameRefused, ReadyIsBacked, ReservedName, NamespaceToken, PromoteName;
    var created := CreateShareName(s.net, WantedKey(s.cr.spec), p.createName);
    UnnamedSound(s, s.(net := created.net), Reason.NameError, created.reply, p);
    PromoteSound(s.(net := created.net), p);
  }

  lemma NamesSound(s: St, p: Plan)
    requires Sound(s)
    ensures Sound(Names(s, p).s)
  {
    hide EnsureReservedName, FlushReclaimName, ReadyIsBacked;
    EnsureSound(s, p);
    var ensured := EnsureReservedName(s, p).s;
    FlushFrame(ensured, p.flush, p.flushLands);
    SameStatusBacked(ensured.cr, FlushReclaimName(ensured, p.flush, p.flushLands).s.cr);
  }

  lemma ReleaseSound(s: St, token: string, p: Plan)
    requires p.env.Env? && Sound(s)
    ensures Sound(ReleaseAndClear(s, token, p).s)
  {
    hide EndNotReady, ReadyIsBacked, Cleared, ReleaseOurs;
    ReleaseFrame(s.net, p.env.zid, token, p.releaseAnswers, p.unshare);
    var s1 := s.(net := ReleaseOurs(s.net, p.env.zid, token, p.releaseAnswers, p.unshare).net);
    EndSound(s1, Reason.HealError, p.errText, p, Errored);
    ClearedBacked(s1.cr, p.now);
  }

  lemma TakeDownSound(s: St, cls: Classified, p: Plan)
    requires p.env.Env? && Sound(s)
    ensures Sound(TakeDown(s, cls, p).s)
  {
    hide ReleaseTarget, ReleaseAndClear, ReclaimPreviousName, LiveFrontendName, ReadyIsBacked;
    var target := ReleaseTarget(s.cr, cls);
    if target.Some? {
      ReleaseSound(s, target.value, p);
      var released := ReleaseAndClear(s, target.value, p);
      if released.More? {
        ReclaimFrame(released.s, LiveFrontendName(s.cr, cls), s.cr.status.reservation == Reserved, p);
        SameStatusBacked(released.s.cr, ReclaimPreviousName(released.s, LiveFrontendName(s.cr, cls),
                                                            s.cr.status.reservation == Reserved, p).s.cr);
      }
    }
  }

  lemma HolderSound(s: St, token: string, p: Plan)
    requires p.env.Env? && Sound(s)
    ensures Sound(ReleaseHolder(s, token, p).s)
  {
    hide EndNotReady, ReadyIsBacked, ReleaseOurs;
    ReleaseFrame(s.net, p.env.zid, token, p.releaseAnswersAgain, p.unshareAgain);
    var s1 := s.(net := ReleaseOurs(s.net, p.env.zid, token, p.releaseAnswersAgain, p.unshareAgain).net);
    EndSound(s1, Reason.HealError, p.errText, p, Errored);
  }

  lemma ConflictSound(s: St, digest: string, p: Plan)
    requires p.env.Env? && Sound(s)
    ensures Sound(HandleShareConflict(s, digest, p).s)
  {
    hide Classify, AdoptableAgentShare, MarkShareReady, EndNotReady, EndNameConflict, ReadyIsBacked, ReleaseHolder;
    hide TargetsEqual;
    var inv := LoadInventory(s.net, p.env.zid, p.remoteListedAgain, p.agentAnswersAgain);
    AdoptedNamed(s.cr, s.cr, inv, digest);
    var adopted := AdoptableAgentShare(s.cr, Classify(s.cr, inv), digest);
    if adopted.Some? {
      MarkSound(s, adopted.value.token, adopted.value.frontendEndpoints, digest, p);
    }
    var target := ConflictTarget(s.cr, Classify(s.cr, inv));
    if target.Some? {
      HolderSound(s, target.value, p);
    }
    EndSound(s, Reason.InventoryError, p.errText, p, Errored);
    EndSound(s, Reason.ShareError, "", p, Requeued);
  }

  lemma AddedSound(s: St, mode: ShareMode, token: string, endpoints: seq<string>)
    requires Sound(s) && token != ""
    ensures Sound(s.(net := AddShare(s.net, s.cr.id, s.cr.spec, mode, token, endpoints)))
  {
    hide ReadyIsBacked, ModeText, DesiredBackendMode;
  }

  lemma CreateSound(s: St, digest: string, p: Plan)
    requires p.env.Env? && Sound(s) && p.newToken != ""
    ensures Sound(Create(s, digest, p).s)
  {
    hide HandleShareConflict, MarkShareReady, EndNotReady, AddShare, Sound, RemoteByName, RemoteByToken;
    var token := VanityOr(s.cr.spec, p.newToken);
    AddedSound(s, ShareMode.Private, token, []);
    MarkSound(s.(net := AddShare(s.net, s.cr.id, s.cr.spec, ShareMode.Private, token, [])), token, [], digest, p);
    AddedSound(s, Public, p.newToken, p.newEndpoints);
    MarkSound(s.(net := AddShare(s.net, s.cr.id, s.cr.spec, Public, p.newToken, p.newEndpoints)), p.newToken,
              p.newEndpoints, digest, p);
    ConflictSound(s, digest, p);
    EndSound(s, Reason.ShareError, p.errText, p, Errored);
  }

  lemma ConvergeSound(s: St, digest: string, p: Plan)
    requires p.env.Env? && Sound(s) && p.newToken != ""
    ensures Sound(Converge(s, digest, p).s)
  {
    hide Survey, Names, TakeDown, Create, MarkShareReady, Classify, AdoptableAgentShare, Sound, ReadyIsBacked;
    var inv := LoadInventory(s.net, p.env.zid, p.remoteListed, p.agentAnswers);
    var cls := Classify(s.cr, inv);
    NamedInventory(s, p);
    SurveySound(s, inv, digest, p);
    SurveyFrame(s, cls, digest, p);
    NamesSound(s, p);
    var named := Names(s, p);
    AdoptedNamed(named.s.cr, s.cr, inv, digest);
    var adopted := AdoptableAgentShare(named.s.cr, cls, digest);
    if adopted.Some? {
      MarkSound(named.s, adopted.value.token, adopted.value.frontendEndpoints, digest, p);
    }
    TakeDownSound(named.s, cls, p);
    CreateSound(TakeDown(named.s, cls, p).s, digest, p);
  }

  lemma NamedInventory(s: St, p: Plan)
    requires p.env.Env? && Sound(s)
    ensures forall e :: e in LoadInventory(s.net, p.env.zid, p.remoteListed, p.agentAnswers).agent ==>
              e in s.net.agent && e.token != ""
  {
    hide ReadyIsBacked;
  }

  lemma ReconcileSound(s: St, rival: bool, p: Plan)
    requires Sound(s) && p.newToken != ""
    ensures Sound(Reconcile(s, rival, p).s)
  {
    hide Admit, Converge, ApplyDigest, Sound;
    AdmitFrame(s, rival, p);
    AdmitSound(s, rival, p);
    if Admit(s, rival, p).More? {
      ConvergeSound(s, ApplyDigest(s.cr.spec, p.basicAuth.value), p);
    }
  }

  lemma DeleteShareSound(s: St, token: string, inv: Inventory, p: Plan)
    requires Sound(s)
    ensures Sound(DeleteShare(s, token, inv, p).s)
  {
    hide IsOurShareToken, ReadyIsBacked, Cleared;
    ClearedBacked(s.cr, p.now);
  }

  lemma DeleteSound(s: St, rival: bool, p: Plan)
    requires Sound(s)
    ensures Sound(ReconcileDelete(s, rival, p).s)
  {
    hide DeleteShare, DeleteName, DeletionToken, ReadyIsBacked, AttachedHolder, IsOurShareToken;
    var inv := DeletionInventory(s, p);
    var claimed := ReservedName(s.cr.spec) != "" && p.resourcesListed && rival;
    var token := DeletionToken(s.cr, claimed, inv);
    DeleteShareSound(s, token, inv, p);
    var unshared := DeleteShare(s, token, inv, p).s;
    DeleteNameFrame(unshared, claimed, inv, p);
    var unnamed := DeleteName(unshared, claimed, inv, p).s;
    SameStatusBacked(unnamed.cr, unnamed.cr.(finalizer := false));
  }

  // ----- whole runs -----

  /** New tokens and the agent's tokens are not empty. */
  ghost predicate TokensGiven(a: Action) {
    match a
    case Run(_, p) => p.newToken != ""
    case Outside(_, agent) => forall d :: d in agent ==> d.token != ""
    case _ => true
  }

  ghost predicate AllSound(w: World) {
    AgentNamed(w.net) && forall id :: id in w.crs ==> ReadyIsBacked(w.crs[id])
  }

  lemma StepSound(w: World, a: Action)
    requires AllSound(w) && TokensGiven(a)
    ensures AllSound(Step(w, a))
  {
    hide Reconcile, ReconcileDelete, Rival, ReadyIsBacked;
    match a
    case Run(id, p) =>
      if id in w.crs {
        var s := St(w.crs[id], w.net);
        if s.cr.deleting {
          DeleteSound(s, Rival(w.crs, id), p);
        } else {
          ReconcileSound(s, Rival(w.crs, id), p);
        }
      }
    case Submit(id, spec) => NewBacked(id, spec);
    case Edit(id, spec) =>
      if id in w.crs {
        SameStatusBacked(w.crs[id], w.crs[id].(spec := spec, generation := w.crs[id].generation + 1));
      }
    case Remove(id) =>
      if id in w.crs {
        SameStatusBacked(w.crs[id], w.crs[id].(deleting := true));
      }
    case Outside(_, _) =>
  }

  lemma NewBacked(id: Id, spec: ShareSpec)
    ensures ReadyIsBacked(NewShare(id, spec))
  {}

  /** In every run of any resources, with any failures, edits, restarts and other users of the account: Ready is
      backed, and what was taken down leaves no token, URL or endpoint behind in status. */
  lemma {:induction false} ReadyMeansBacked(w: World, actions: seq<Action>, id: Id)
    requires w.crs == map[] && AgentNamed(w.net) && forall i :: 0 <= i < |actions| ==> TokensGiven(actions[i])
    ensures AllSound(After(w, actions))
    ensures id in After(w, actions).crs ==> ReadyIsBacked(After(w, actions).crs[id])
  {
    hide Step, ReadyIsBacked, TokensGiven;
    if actions != [] {
      ReadyMeansBacked(w, actions[..|actions| - 1], id);
      StepSound(After(w, actions[..|actions| - 1]), actions[|actions| - 1]);
    }
  }
}
