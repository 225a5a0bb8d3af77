/** The share controller as it runs: one object whose fields the steps overwrite (controller/share_controller.go).
    Every method is proved to do to the state what the function of the same name in ShareSteps says. */
module ShareController {
  import opened Options
  import Conditions
  import Digest
  import FrontendNames
  import opened Inventory
  import opened Shares
  import ShareFrames
  import Spec = ShareSteps
  import Targets
  import Upstream
  import World = ShareWorld
  import Zrok

  type Plan = Spec.Plan

  datatype Outcome = Continue | Ended(verdict: Spec.Verdict)

  function AsFlow(out: Outcome, s: Spec.St): Spec.Flow {
    match out
    case Continue => Spec.More(s)
    case Ended(verdict) => Spec.Done(s, verdict)
  }

  class ShareReconciler {
    // the resource being reconciled
    var id: Id
    var generation: int
    var deleting: bool
    var finalizer: bool
    var appliedDigest: string
    var reclaimName: string
    var spec: ShareSpec
    var observedGeneration: int
    var assignedURL: string
    var frontendEndpoints: seq<string>
    var shareToken: string
    var reservation: Reservation
    var conditions: seq<Conditions.Condition>

    // the zrok account and the agent; `owner` and `log` are bookkeeping of the model
    var remote: seq<RemoteShare>
    var agent: seq<ShareDetail>
    var names: map<Zrok.NameKey, bool>
    var taken: set<Zrok.NameKey>
    ghost var owner: map<string, Id>
    ghost var log: seq<Zrok.Event>

    constructor (remote: seq<RemoteShare>, agent: seq<ShareDetail>, names: map<Zrok.NameKey, bool>,
                 taken: set<Zrok.NameKey>, c: ZrokShare)
      ensures State() == Spec.St(c, Zrok.Net(remote, agent, names, taken, map[], []))
    {
      id, generation, deleting, finalizer := c.id, c.generation, c.deleting, c.finalizer;
      appliedDigest, reclaimName, spec := c.appliedDigest, c.reclaimName, c.spec;
      observedGeneration, assignedURL, frontendEndpoints :=
        c.status.observedGeneration, c.status.assignedURL, c.status.frontendEndpoints;
      shareToken, reservation, conditions := c.status.shareToken, c.status.reservation, c.status.conditions;
      this.remote, this.agent, this.names, this.taken := remote, agent, names, taken;
      owner, log := map[], [];
    }

    /** Fetches the stored resource. */
    method Get(c: ZrokShare)
      modifies this
      ensures State() == Spec.St(c, old(Outside())) && deleting == c.deleting
    {
      hide Resource, Outside;
      GetSpec(c);
      GetStatus(c.status);
      SameResource(c);
    }

    lemma SameResource(c: ZrokShare)
      requires id == c.id && generation == c.generation && deleting == c.deleting && finalizer == c.finalizer
      requires appliedDigest == c.appliedDigest && reclaimName == c.reclaimName && spec == c.spec
      requires observedGeneration == c.status.observedGeneration && assignedURL == c.status.assignedURL
      requires frontendEndpoints == c.status.frontendEndpoints && shareToken == c.status.shareToken
      requires reservation == c.status.reservation && conditions == c.status.conditions
      ensures Resource() == c
    {}

    method GetSpec(c: ZrokShare)
      modifies `id, `generation, `deleting, `finalizer, `appliedDigest, `reclaimName, `spec
      ensures id == c.id && generation == c.generation && deleting == c.deleting && finalizer == c.finalizer
      ensures appliedDigest == c.appliedDigest && reclaimName == c.reclaimName && spec == c.spec
      ensures Outside() == old(Outside())
    {
      id, generation, deleting, finalizer := c.id, c.generation, c.deleting, c.finalizer;
      appliedDigest, reclaimName, spec := c.appliedDigest, c.reclaimName, c.spec;
    }

    method GetStatus(status: ShareStatus)
      modifies `observedGeneration, `assignedURL, `frontendEndpoints, `shareToken, `reservation, `conditions
      ensures observedGeneration == status.observedGeneration && assignedURL == status.assignedURL
      ensures frontendEndpoints == status.frontendEndpoints && shareToken == status.shareToken
      ensures reservation == status.reservation && conditions == status.conditions
      ensures Outside() == old(Outside())
    {
      observedGeneration, assignedURL, frontendEndpoints :=
        status.observedGeneration, status.assignedURL, status.frontendEndpoints;
      shareToken, reservation, conditions := status.shareToken, status.reservation, status.conditions;
    }

    /** The resource as the cluster stores it. */
    function Resource(): ZrokShare
      reads this
    {
      ZrokShare(id, generation, deleting, finalizer, appliedDigest, reclaimName, spec,
                ShareStatus(observedGeneration, assignedURL, frontendEndpoints, shareToken, reservation, conditions))
    }

    ghost function Outside(): Zrok.Net
      reads this
    {
      Zrok.Net(remote, agent, names, taken, owner, log)
    }

    ghost function State(): Spec.St
      reads this
    {
      Spec.St(Resource(), Outside())
    }

    // ----- calls to the zrok controller and the agent -----

    method CreateShareName(key: Zrok.NameKey, fault: Zrok.Fault) returns (reply: Zrok.Reply)
      modifies this
      ensures State() == old(State()).(net := Zrok.CreateShareName(old(Outside()), key, fault).net)
      ensures reply == Zrok.CreateShareName(old(Outside()), key, fault).reply
    {
      log := log + [Zrok.CreatedName(key)];
      if fault == Zrok.Denied || fault == Zrok.Broken {
        return Zrok.Injected(fault);
      }
      if !fault.Conflict? && key !in taken && key !in names {
        names := names[key := false];
      }
      reply := Zrok.Ok;
    }

    method UpdateShareName(key: Zrok.NameKey, fault: Zrok.Fault) returns (reply: Zrok.Reply)
      modifies this
      ensures State() == old(State()).(net := Zrok.UpdateShareName(old(Outside()), key, fault).net)
      ensures reply == Zrok.UpdateShareName(old(Outside()), key, fault).reply
    {
      log := log + [Zrok.ReservedIt(key)];
      if fault != Zrok.NoFault {
        return Zrok.Injected(fault);
      }
      if key in taken {
        return Zrok.Unauthorized;
      }
      if key !in names {
        return Zrok.Failed;
      }
      names := names[key := true];
      reply := Zrok.Ok;
    }

    method DeleteShareName(key: Zrok.NameKey, fault: Zrok.Fault) returns (reply: Zrok.Reply)
      modifies this
      ensures State() == old(State()).(net := Zrok.DeleteShareName(old(Outside()), key, fault).net)
      ensures reply == Zrok.DeleteShareName(old(Outside()), key, fault).reply
    {
      var holder := FindByFrontendName(remote, key.name);
      if fault != Zrok.NoFault {
        reply := Zrok.Injected(fault);
      } else if key in taken {
        reply := Zrok.Unauthorized;
      } else if key in names && holder.Some? {
        reply := Zrok.Attached(holder.value.token);
      } else {
        reply := Zrok.Ok;
      }
      log := log + [Zrok.DeletedName(key, reply)];
      if reply == Zrok.Ok {
        names := names - {key};
      }
    }

    method ReleaseShare(token: string, answers: bool)
      modifies this
      ensures State() == old(State()).(net := Zrok.ReleaseShare(old(Outside()), token, answers))
    {
      log := log + [Zrok.Released(token)];
      if answers {
        agent := Zrok.WithoutAgent(agent, token);
      }
    }

    method Unshare(token: string, fault: Zrok.Fault) returns (reply: Zrok.Reply)
      modifies this
      ensures State() == old(State()).(net := Zrok.Unshare(old(Outside()), token, fault).net)
      ensures reply == Zrok.Unshare(old(Outside()), token, fault).reply
    {
      if token == "" {
        return Zrok.Ok;
      }
      log := log + [Zrok.Unshared(token, Zrok.Injected(fault))];
      if fault == Zrok.NoFault {
        remote, agent := Zrok.WithoutRemote(remote, token), Zrok.WithoutAgent(agent, token);
      }
      reply := Zrok.Injected(fault);
    }

    method AddShare(mode: ShareMode, token: string, endpoints: seq<string>)
      modifies this
      ensures State() == old(State()).(net := Zrok.AddShare(old(Outside()), old(id), old(spec), mode, token, endpoints))
    {
      remote := remote + [Zrok.CreatedRemote(spec, mode, token, endpoints)];
      agent := agent + [Zrok.CreatedDetail(spec, mode, token, endpoints)];
      owner := owner[token := id];
      log := log + [Zrok.Shared(token)];
    }

    method SharePublic(fault: Zrok.Fault, token: string, endpoints: seq<string>) returns (reply: Zrok.Reply)
      modifies this
      ensures
        State() == old(State()).(
        net := Zrok.SharePublic(old(Outside()), old(id), old(spec), fault, token, endpoints).net)
      ensures reply == Zrok.SharePublic(old(Outside()), old(id), old(spec), fault, token, endpoints).reply
    {
      if fault != Zrok.NoFault {
        return Zrok.Injected(fault);
      }
      var holder := FindByFrontendName(remote, ReservedName(spec));
      if holder.Some? {
        return Zrok.Attached(holder.value.token);
      }
      AddShare(Public, token, endpoints);
      reply := Zrok.Ok;
    }

    method SharePrivate(fault: Zrok.Fault, token: string) returns (reply: Zrok.Reply)
      modifies this
      ensures State() == old(State()).(net := Zrok.SharePrivate(old(Outside()), old(id), old(spec), fault, token).net)
      ensures reply == Zrok.SharePrivate(old(Outside()), old(id), old(spec), fault, token).reply
    {
      if fault != Zrok.NoFault {
        return Zrok.Injected(fault);
      }
      var holder := FindByToken(remote, spec.privateShareToken);
      if holder.Some? {
        return Zrok.Failed;
      }
      AddShare(ShareMode.Private, Zrok.VanityOr(spec, token), []);
      reply := Zrok.Ok;
    }

    // ----- status and annotation patches -----

    method SetCondition(kind: Conditions.Kind, status: Conditions.ConditionStatus, reason: Conditions.Reason,
                        message: string, now: int)
      modifies this
      ensures State() == var was := old(State());
        was.(cr := was.cr.(status := was.cr.status.(conditions :=
          Conditions.Apply(was.cr.status.conditions,
                           Conditions.Update(kind, status, reason, message, was.cr.generation, now)))))
    {
      var list := new Conditions.ConditionList(conditions);
      list.SetCondition(Conditions.Update(kind, status, reason, message, generation, now));
      conditions := list.items;
    }

    method SetNotReady(reason: Conditions.Reason, message: string, p: Plan)
      modifies this
      ensures State() == Spec.Noted(old(State()), p.noteLands, Spec.NotReady(old(Resource()), reason, message, p.now))
    {
      if p.noteLands {
        observedGeneration := generation;
        SetCondition(Conditions.Kind.Ready, Conditions.False, reason, message, p.now);
      }
    }

    method SetNameConflict(p: Plan) returns (out: Outcome)
      modifies this
      ensures AsFlow(out, State()) == Spec.EndNameConflict(old(State()), p)
    {
      SetNameNotReady(Conditions.Reason.NameConflict, "", p);
      out := Ended(Spec.Requeued);
    }

    method SetNameNotReady(reason: Conditions.Reason, message: string, p: Plan)
      modifies this
      ensures State() == Spec.Noted(old(State()), p.noteLands,
                                    Spec.NameNotReady(old(Resource()), reason, message, p.now))
    {
      if p.noteLands {
        SetCondition(Conditions.Kind.NameReady, Conditions.False, reason, message, p.now);
        SetNotReady(reason, message, p);
      }
    }

    method SetWaitingForEnvironment(p: Plan)
      modifies this
      ensures State() == Spec.Noted(old(State()), p.noteLands, Spec.WaitingForEnvironment(old(Resource()), p.now))
    {
      if p.noteLands {
        SetCondition(Conditions.Kind.EnvironmentReady, Conditions.False, Conditions.Reason.Waiting, "", p.now);
        SetNotReady(Conditions.Reason.WaitingForEnvironment, "", p);
      }
    }

    method ClearShareBinding(lands: bool, now: int) returns (out: Outcome)
      modifies this
      ensures var was := old(State());
        AsFlow(out, State()) == if Spec.Cleared(was.cr, now) != was.cr && !lands then Spec.Done(was, Spec.Errored)
                                else Spec.More(was.(cr := Spec.Cleared(was.cr, now)))
    {
      if shareToken == "" && assignedURL == "" {
        return Continue;
      }
      if !lands {
        return Ended(Spec.Errored);
      }
      shareToken, assignedURL, frontendEndpoints := "", "", [];
      SetCondition(Conditions.Kind.Ready, Conditions.False, Conditions.Reason.Healing, "", now);
      out := Continue;
    }

    method SetReadyConditions(now: int)
      modifies this
      ensures State() == var was := old(State());
        was.(cr := was.cr.(status := was.cr.status.(conditions := Spec.ReadyConditions(was.cr, now))))
    {
      hide Conditions.Apply, ReservedName, DesiredShareMode;
      SetCondition(Conditions.Kind.NameReady, Conditions.True, Spec.NameReason(spec), "", now);
      SetCondition(Conditions.Kind.EnvironmentReady, Conditions.True, Conditions.Reason.Ready, "", now);
      SetCondition(Conditions.Kind.ShareCreated, Conditions.True, Conditions.Reason.Created, "", now);
      SetCondition(Conditions.Kind.Ready, Conditions.True, Conditions.Reason.Ready, "", now);
    }

    method PatchReady(token: string, endpoints: seq<string>, now: int)
      modifies this
      ensures State() == old(State()).(cr := Spec.Marked(old(Resource()), token, endpoints, now))
    {
      hide Conditions.Apply, Spec.ReadyConditions, Spec.ReservationOf, Spec.NameReason, Spec.AssignedURL;
      SetReadyConditions(now);
      var url := UrlOf(token, endpoints);
      var reserved := Spec.ReservationOf(spec);
      observedGeneration, shareToken, frontendEndpoints, assignedURL, reservation :=
        generation, token, endpoints, url, reserved;
    }

    method UrlOf(token: string, endpoints: seq<string>) returns (url: string)
      ensures url == Spec.AssignedURL(spec, token, endpoints)
    {
      url := "";
      if |endpoints| > 0 {
        url := endpoints[0];
      } else if spec.shareMode == ShareMode.Private {
        url := token;
      }
    }

    method MarkShareReady(token: string, endpoints: seq<string>, digest: string, p: Plan) returns (out: Outcome)
      modifies this
      ensures AsFlow(out, State()) == Spec.MarkShareReady(old(State()), token, endpoints, digest, p)
      ensures out.Ended?
    {
      hide Spec.Marked;
      if !p.readyLands {
        return Ended(Spec.Errored);
      }
      PatchReady(token, endpoints, p.now);
      if appliedDigest != digest {
        if !p.digestLands {
          return Ended(Spec.Errored);
        }
        appliedDigest := digest;
      }
      out := Ended(Spec.Requeued);
    }

    method ForgetReclaim(lands: bool) returns (out: Outcome)
      modifies this
      ensures AsFlow(out, State()) == Spec.ForgetReclaim(old(State()), lands)
    {
      if reclaimName == "" {
        return Continue;
      }
      if !lands {
        return Ended(Spec.Errored);
      }
      log := log + [Zrok.ForgotReclaim(reclaimName)];
      reclaimName := "";
      out := Continue;
    }

    // ----- names -----

    method LoadInventory(zid: string, listed: bool, answers: bool) returns (inv: Inventory)
      ensures inv == Spec.LoadInventory(Outside(), zid, listed, answers)
    {
      inv := Inventory(false, [], []);
      if zid != "" && listed {
        inv := inv.(listed := true, remote := remote);
      }
      if answers {
        inv := inv.(agent := agent);
      }
    }

    method EnsureReservedName(p: Plan) returns (out: Outcome)
      modifies this
      ensures AsFlow(out, State()) == Spec.EnsureReservedName(old(State()), p)
    {
      hide Conditions.Apply, Zrok.CreateShareName, Zrok.UpdateShareName;
      if ReservedName(spec) == "" {
        return Continue;
      }
      var key := Spec.WantedKey(spec);
      var created := CreateShareName(key, p.createName);
      if created != Zrok.Ok {
        SetNameNotReady(Conditions.Reason.NameError, p.errText, p);
        out := NameRefused(created, p);
        return;
      }
      var reserved := UpdateShareName(key, p.reserveName);
      if reserved == Zrok.Ok {
        return Continue;
      }
      if reserved != Zrok.Unauthorized {
        SetNameNotReady(Conditions.Reason.ReserveError, p.errText, p);
      }
      out := NameRefused(reserved, p);
    }

    method NameRefused(reply: Zrok.Reply, p: Plan) returns (out: Outcome)
      modifies this
      ensures AsFlow(out, State()) == Spec.NameRefused(old(State()), reply, p)
    {
      if reply == Zrok.Unauthorized {
        out := SetNameConflict(p);
      } else {
        out := Ended(Spec.Errored);
      }
    }

    method FlushReclaimName(fault: Zrok.Fault, lands: bool) returns (out: Outcome)
      modifies this
      ensures AsFlow(out, State()) == Spec.FlushReclaimName(old(State()), fault, lands)
    {
      if reclaimName == "" || reclaimName == ReservedName(spec) {
        out := ForgetReclaim(lands);
        return;
      }
      var reply := DeleteShareName(Zrok.NameKey(NamespaceToken(spec), reclaimName), fault);
      match reply
      case Ok => out := ForgetReclaim(lands);
      case Unauthorized => out := ForgetReclaim(lands);
      case Attached(_) => out := Ended(Spec.Requeued);
      case Failed => out := Ended(Spec.Errored);
    }

    // ----- taking down -----

    method ReleaseOurs(zid: string, token: string, answers: bool, fault: Zrok.Fault) returns (reply: Zrok.Reply)
      modifies this
      ensures State() == old(State()).(net := Spec.ReleaseOurs(old(Outside()), zid, token, answers, fault).net)
      ensures reply == Spec.ReleaseOurs(old(Outside()), zid, token, answers, fault).reply
    {
      if token == "" {
        return Zrok.Ok;
      }
      ReleaseShare(token, answers);
      if zid == "" {
        return Zrok.Ok;
      }
      reply := Unshare(token, fault);
    }

    method ReleaseAndClear(token: string, p: Plan) returns (out: Outcome)
      requires p.env.Env?
      modifies this
      ensures AsFlow(out, State()) == Spec.ReleaseAndClear(old(State()), token, p)
    {
      hide Conditions.Apply, Spec.ReleaseOurs;
      var reply := ReleaseOurs(p.env.zid, token, p.releaseAnswers, p.unshare);
      if reply != Zrok.Ok {
        SetNotReady(Conditions.Reason.HealError, p.errText, p);
        return Ended(Spec.Errored);
      }
      out := ClearShareBinding(p.clearLands, p.now);
    }

    method ReclaimPreviousName(oldName: string, wasReserved: bool, p: Plan) returns (out: Outcome)
      modifies this
      ensures AsFlow(out, State()) == Spec.ReclaimPreviousName(old(State()), oldName, wasReserved, p)
    {
      hide Spec.FlushReclaimName;
      if !wasReserved || oldName == "" || oldName == ReservedName(spec) || spec.reclaimPolicy == Retain {
        return Continue;
      }
      if reclaimName != oldName && !p.recordLands {
        return Ended(Spec.Errored);
      }
      log := log + [Zrok.RecordedReclaim(oldName)];
      reclaimName := oldName;
      out := FlushReclaimName(p.reclaim, p.reclaimLands);
    }

    method LiveName(cls: Classified) returns (name: string)
      ensures name == LiveFrontendName(Resource(), cls)
    {
      name := "";
      if cls.agent.Some? {
        name := FrontendNames.FirstFrontendName(cls.agent.value.frontendEndpoints);
      }
      if name == "" && cls.remote.Some? {
        name := FrontendNames.FirstFrontendName(cls.remote.value.frontendEndpoints);
      }
      if name == "" {
        name := FrontendNames.FrontendNameFromEndpoint(assignedURL);
      }
    }

    /** Releases what stands in the way of the share the spec asks for, and reclaims the name it was live under. */
    method TakeDown(cls: Classified, p: Plan) returns (out: Outcome)
      requires p.env.Env?
      modifies this
      ensures AsFlow(out, State()) == Spec.TakeDown(old(State()), cls, p)
    {
      hide Spec.ReleaseAndClear, Spec.ReclaimPreviousName, LiveFrontendName, Targets.TargetsEqual;
      var oldName := LiveName(cls);
      var wasReserved := reservation == Reserved;
      if cls.agent.Some? {
        out := ReleaseAndClear(cls.agent.value.token, p);
      } else if cls.remote.Some? && Targets.TargetsEqual(cls.remote.value.target, spec.upstream) {
        out := ReleaseAndClear(cls.remote.value.token, p);
      } else if cls.remote.Some? && shareToken == cls.remote.value.token {
        out := ReleaseAndClear(cls.remote.value.token, p);
      } else {
        return Continue;
      }
      if out.Continue? {
        out := ReclaimPreviousName(oldName, wasReserved, p);
      }
    }

    // ----- creating -----

    method Create(digest: string, p: Plan) returns (out: Outcome)
      requires p.env.Env?
      modifies this
      ensures AsFlow(out, State()) == Spec.Create(old(State()), digest, p)
    {
      hide Spec.MarkShareReady, Spec.HandleShareConflict, Zrok.SharePublic, Zrok.SharePrivate, Spec.NotReady;
      if DesiredShareMode(spec) == ShareMode.Private {
        var reply := SharePrivate(p.share, p.newToken);
        if reply != Zrok.Ok {
          SetNotReady(Conditions.Reason.ShareError, p.errText, p);
          return Ended(Spec.Errored);
        }
        out := MarkShareReady(Zrok.VanityOr(spec, p.newToken), [], digest, p);
        return;
      }
      var reply := SharePublic(p.share, p.newToken, p.newEndpoints);
      if reply == Zrok.Ok {
        out := MarkShareReady(p.newToken, p.newEndpoints, digest, p);
      } else if reply.Attached? && ReservedName(spec) != "" {
        out := HandleShareConflict(digest, p);
      } else {
        SetNotReady(Conditions.Reason.ShareError, p.errText, p);
        out := Ended(Spec.Errored);
      }
    }

    method HandleShareConflict(digest: string, p: Plan) returns (out: Outcome)
      requires p.env.Env?
      modifies this
      ensures AsFlow(out, State()) == Spec.HandleShareConflict(old(State()), digest, p)
    {
      hide Spec.MarkShareReady, Classify, AdoptableAgentShare, Targets.TargetsEqual, Spec.NotReady, Spec.NameNotReady;
      hide Spec.ReleaseOurs;
      var inv := LoadInventory(p.env.zid, p.remoteListedAgain, p.agentAnswersAgain);
      if p.env.zid != "" && !p.remoteListedAgain {
        SetNotReady(Conditions.Reason.InventoryError, p.errText, p);
        return Ended(Spec.Errored);
      }
      var cls := ClassifyShare(Resource(), inv);
      if cls.foreignName {
        out := SetNameConflict(p);
        return;
      }
      var adopted := AdoptableAgentShare(Resource(), cls, digest);
      if adopted.Some? {
        out := MarkShareReady(adopted.value.token, adopted.value.frontendEndpoints, digest, p);
        return;
      }
      if cls.remote.Some? && Targets.TargetsEqual(cls.remote.value.target, spec.upstream) {
        var reply := ReleaseOurs(p.env.zid, cls.remote.value.token, p.releaseAnswersAgain, p.unshareAgain);
        if reply != Zrok.Ok {
          SetNotReady(Conditions.Reason.HealError, p.errText, p);
          return Ended(Spec.Errored);
        }
        return Ended(Spec.Requeued);
      }
      SetNotReady(Conditions.Reason.ShareError, "", p);
      out := Ended(Spec.Requeued);
    }

    // ----- reconcile -----

    /** Everything that is decided before the first call leaves the cluster. `all` is the list of resources. */
    method Admit(all: seq<ZrokShare>, p: Plan) returns (out: Outcome)
      modifies this
      ensures AsFlow(out, State()) == Spec.Admit(old(State()), OtherClaims(old(Resource()), all), p)
      ensures out.Continue? ==> State() == old(State()) && p.env.Env? && p.basicAuth.Some?
    {
      hide Spec.NotReady, Upstream.Judge, Spec.WaitingForEnvironment, Spec.AdmitEnvironment;
      if !finalizer {
        if p.finalizerLands {
          finalizer := true;
          return Ended(Spec.Settled);
        }
        return Ended(Spec.Errored);
      }
      if Spec.InvalidSelection(spec) {
        SetNotReady(Conditions.Reason.InvalidSpec, "", p);
        return Ended(Spec.Settled);
      }
      if p.restrictUpstream {
        var verdict := Upstream.ValidateShareUpstream(spec.upstream, id.namespace);
        if verdict != Upstream.Allowed {
          SetNotReady(Conditions.Reason.UpstreamNotAllowed, p.errText, p);
          return Ended(Spec.Settled);
        }
        if spec.backendMode == SOCKS {
          SetNotReady(Conditions.Reason.BackendModeNotAllowed, "", p);
          return Ended(Spec.Settled);
        }
      }
      out := AdmitEnvironment(all, p);
    }

    method AdmitEnvironment(all: seq<ZrokShare>, p: Plan) returns (out: Outcome)
      modifies this
      ensures AsFlow(out, State()) == Spec.AdmitEnvironment(old(State()), OtherClaims(old(Resource()), all), p)
      ensures out.Continue? ==> State() == old(State()) && p.env.Env? && p.basicAuth.Some?
    {
      hide Spec.NotReady, Spec.NameNotReady, Spec.WaitingForEnvironment, OtherClaims;
      match p.env
      case EnvMissing =>
        SetNotReady(Conditions.Reason.EnvironmentMissing, p.errText, p);
        return Ended(Spec.Requeued);
      case EnvUnreadable =>
        return Ended(Spec.Errored);
      case Env(ready, _, credential) =>
        if !ready {
          SetWaitingForEnvironment(p);
          return Ended(Spec.Requeued);
        }
        if credential != Spec.Token {
          SetNotReady(Conditions.Reason.SecretError, p.errText, p);
          return Ended(Spec.Errored);
        }
        if p.basicAuth.None? {
          SetNotReady(Conditions.Reason.BasicAuthError, p.errText, p);
          return Ended(Spec.Errored);
        }
        if ReservedName(spec) != "" && !p.resourcesListed {
          return Ended(Spec.Errored);
        }
        var other := OtherShareWithFrontendName(Resource(), all);
        OtherIsFound(Resource(), all, other);
        if other.Some? {
          out := SetNameConflict(p);
        } else {
          out := Continue;
        }
    }

    method Reconcile(all: seq<ZrokShare>, p: Plan) returns (verdict: Spec.Verdict)
      modifies this
      ensures Spec.Done(State(), verdict) == Spec.Reconcile(old(State()), OtherClaims(old(Resource()), all), p)
    {
      hide Spec.Admit, Spec.Converge, Digest.ApplyDigest;
      var out := Admit(all, p);
      if out.Ended? {
        return out.verdict;
      }
      var digest := Digest.ShareApplyDigest(spec, p.basicAuth.value);
      out := Converge(digest, p);
      ConvergeEnds(old(State()), digest, p);
      verdict := out.verdict;
    }

    method Converge(digest: string, p: Plan) returns (out: Outcome)
      requires p.env.Env?
      modifies this
      ensures AsFlow(out, State()) == Spec.Converge(old(State()), digest, p)
      ensures out.Ended?
    {
      hide Spec.Survey, Spec.Names, Spec.TakeDown, Spec.Create, Spec.MarkShareReady, Classify, AdoptableAgentShare;
      hide Spec.LoadInventory;
      ConvergeEnds(State(), digest, p);
      var inv := LoadInventory(p.env.zid, p.remoteListed, p.agentAnswers);
      var cls := ClassifyShare(Resource(), inv);
      out := Survey(cls, digest, p);
      if out.Ended? {
        return;
      }
      out := Names(p);
      if out.Ended? {
        return;
      }
      var adopted := AdoptableAgentShare(Resource(), cls, digest);
      if adopted.Some? {
        out := MarkShareReady(adopted.value.token, adopted.value.frontendEndpoints, digest, p);
        return;
      }
      out := TakeDown(cls, p);
      if out.Ended? {
        return;
      }
      out := Create(digest, p);
    }

    method Survey(cls: Classified, digest: string, p: Plan) returns (out: Outcome)
      requires p.env.Env?
      modifies this
      ensures AsFlow(out, State()) == Spec.Survey(old(State()), cls, digest, p)
      ensures out.Continue? ==> State() == old(State())
    {
      hide Spec.MarkShareReady, AdoptableAgentShare, Spec.NotReady, Spec.NameNotReady;
      if p.env.zid != "" && !p.remoteListed {
        var adopted := AdoptableAgentShare(Resource(), cls, digest);
        if adopted.Some? {
          out := MarkShareReady(adopted.value.token, adopted.value.frontendEndpoints, digest, p);
          return;
        }
        SetNotReady(Conditions.Reason.InventoryError, p.errText, p);
        return Ended(Spec.Errored);
      }
      if cls.foreignName {
        out := SetNameConflict(p);
      } else {
        out := Continue;
      }
    }

    method Names(p: Plan) returns (out: Outcome)
      modifies this
      ensures AsFlow(out, State()) == Spec.Names(old(State()), p)
    {
      hide Spec.EnsureReservedName, Spec.FlushReclaimName;
      out := EnsureReservedName(p);
      if out.Continue? {
        out := FlushReclaimName(p.flush, p.flushLands);
      }
    }

    // ----- deletion -----

    method DeleteShare(token: string, inv: Inventory, p: Plan) returns (out: Outcome)
      modifies this
      ensures AsFlow(out, State()) == Spec.DeleteShare(old(State()), token, inv, p)
    {
      hide Conditions.Apply, Zrok.Unshare, Zrok.ReleaseShare, IsOurShareToken, Spec.Cleared;
      var env := Spec.ViewEnv(p.env);
      if !env.reachable || token == "" || !IsOurShareToken(Resource(), token, inv) {
        return Continue;
      }
      ReleaseShare(token, p.releaseAnswers);
      if env.zid != "" && env.authorized {
        var reply := Unshare(token, p.unshare);
        if reply != Zrok.Ok && reply != Zrok.Unauthorized {
          return Ended(Spec.Errored);
        }
      }
      out := ClearShareBinding(p.clearLands, p.now);
    }

    method DeleteName(claimed: bool, inv: Inventory, p: Plan) returns (out: Outcome)
      modifies this
      ensures AsFlow(out, State()) == Spec.DeleteName(old(State()), claimed, inv, p)
    {
      hide Zrok.DeleteShareName, Zrok.Unshare, Zrok.ReleaseShare, IsOurShareToken;
      var env := Spec.ViewEnv(p.env);
      if !env.authorized || spec.reclaimPolicy == Retain || ReservedName(spec) == "" || claimed {
        return Continue;
      }
      var reply := DeleteShareName(Spec.WantedKey(spec), p.reclaim);
      match reply
      case Ok => out := Continue;
      case Unauthorized => out := Continue;
      case Failed => out := Ended(Spec.Errored);
      case Attached(holder) =>
        if IsOurShareToken(Resource(), holder, inv) {
          ReleaseShare(holder, p.releaseAnswersAgain);
          if env.zid != "" {
            var _ := Unshare(holder, p.unshareAgain);
          }
          out := Ended(Spec.Requeued);
        } else if env.zid != "" && !inv.listed {
          out := Ended(Spec.Requeued);
        } else {
          out := Continue;
        }
    }

    /** The share to take down with the resource. */
    method FindDeletionToken(claimed: bool, inv: Inventory) returns (token: string)
      ensures token == Spec.DeletionToken(Resource(), claimed, inv)
    {
      hide Targets.TargetsEqual;
      token := shareToken;
      if token == "" && !claimed {
        var byAgent := FindAgentByName(inv.agent, ReservedName(spec));
        if byAgent.Some? {
          token := byAgent.value.token;
        }
        if token == "" {
          var byName := FindByFrontendName(inv.remote, ReservedName(spec));
          if byName.Some? && Targets.TargetsEqual(byName.value.target, spec.upstream) {
            token := byName.value.token;
          }
        }
      }
    }

    method ReconcileDelete(all: seq<ZrokShare>, p: Plan) returns (verdict: Spec.Verdict)
      modifies this
      ensures Spec.Done(State(), verdict) == Spec.ReconcileDelete(old(State()), OtherClaims(old(Resource()), all), p)
    {
      hide Spec.DeleteShare, Spec.DeleteName, Spec.DeletionToken, Spec.LoadInventory, OtherClaims, Spec.DropFinalizer;
      if !finalizer {
        return Spec.Settled;
      }
      if p.env.EnvUnreadable? || (p.env.Env? && p.env.credential == Spec.Unreadable) {
        return Spec.Errored;
      }
      var env := Spec.ViewEnv(p.env);
      var inv := LoadInventory(env.zid, p.remoteListed, p.agentAnswers && env.reachable);
      var claimed := NameClaimed(all, p);
      var token := FindDeletionToken(claimed, inv);
      var out := DeleteShare(token, inv, p);
      if out.Continue? {
        out := DeleteName(claimed, inv, p);
      }
      if out.Ended? {
        return out.verdict;
      }
      verdict := DropFinalizer(p);
    }

    method NameClaimed(all: seq<ZrokShare>, p: Plan) returns (claimed: bool)
      ensures claimed == (ReservedName(spec) != "" && p.resourcesListed && OtherClaims(Resource(), all))
    {
      if !p.resourcesListed {
        return false;
      }
      var other := OtherShareWithFrontendName(Resource(), all);
      OtherIsFound(Resource(), all, other);
      claimed := other.Some?;
    }

    method DropFinalizer(p: Plan) returns (verdict: Spec.Verdict)
      modifies this
      ensures Spec.Done(State(), verdict) == Spec.DropFinalizer(old(State()), p)
    {
      if !p.finalizerLands {
        return Spec.Errored;
      }
      finalizer := false;
      verdict := Spec.Settled;
    }
  }

  /** The resources of the cluster, and the reconciler that works on one of them at a time. */
  class ShareCluster {
    var crs: map<Id, ZrokShare>
    const work: ShareReconciler

    constructor (work: ShareReconciler)
      ensures this.work == work && crs == map[]
    {
      this.work := work;
      crs := map[];
    }

    ghost predicate Valid()
      reads this
    {
      forall id :: id in crs ==> crs[id].id == id
    }

    ghost function Whole(): World.World
      reads this, work
    {
      World.World(crs, work.Outside())
    }

    method ListShares() returns (all: seq<ZrokShare>)
      ensures forall o :: o in all <==> exists id :: id in crs && crs[id] == o
    {
      all := [];
      var ids := crs.Keys;
      while ids != {}
        invariant ids <= crs.Keys
        invariant forall o :: o in all <==> exists id :: id in crs && id !in ids && crs[id] == o
        decreases |ids|
      {
        var id :| id in ids;
        all := all + [crs[id]];
        ids := ids - {id};
      }
    }

    /** Handles one request of the work queue: fetch the resource, reconcile or delete it, with the outcome stored. */
    method Handle(id: Id, p: Plan)
      requires Valid()
      modifies this, work
      ensures Valid() && Whole() == World.Step(old(Whole()), World.Run(id, p))
    {
      hide Spec.Reconcile, Spec.ReconcileDelete, OtherClaims, World.Rival;
      if id !in crs {
        return;
      }
      work.Get(crs[id]);
      ghost var before := work.State();
      var all := ListShares();
      ListedRivals(crs, id, all);
      if work.deleting {
        ShareFrames.DeleteFrame(before, World.Rival(crs, id), p);
        var _ := work.ReconcileDelete(all, p);
      } else {
        ShareFrames.ReconcileFrame(before, World.Rival(crs, id), p);
        var _ := work.Reconcile(all, p);
      }
      crs := World.Put(crs, id, work.Resource());
    }
  }

  lemma ListedRivals(crs: map<Id, ZrokShare>, id: Id, all: seq<ZrokShare>)
    requires id in crs && forall o :: o in crs ==> crs[o].id == o
    requires forall o :: o in all <==> exists i :: i in crs && crs[i] == o
    ensures OtherClaims(crs[id], all) == World.Rival(crs, id)
  {
    if World.Rival(crs, id) {
      var o :| o in crs && o != id && Claims(crs[o], ReservedName(crs[id].spec));
      assert crs[o] in all;
    }
  }

  /** Some other resource in the list, not being deleted, claims the same reserved name. */
  ghost predicate OtherClaims(self: ZrokShare, all: seq<ZrokShare>) {
    exists o :: o in all && o.id != self.id && Claims(o, ReservedName(self.spec))
  }

  lemma OtherIsFound(self: ZrokShare, all: seq<ZrokShare>, other: Option<ZrokShare>)
    requires other.Some? ==>
               other.value in all && other.value.id != self.id && Claims(other.value, ReservedName(self.spec))
    requires other.None? ==> forall o :: o in all && o.id != self.id ==> !Claims(o, ReservedName(self.spec))
    ensures other.Some? <==> OtherClaims(self, all)
    ensures other.Some? ==> ReservedName(self.spec) != ""
  {}

  lemma ConvergeEnds(s: Spec.St, digest: string, p: Plan)
    requires p.env.Env?
    ensures Spec.Converge(s, digest, p).Done?
  {
    hide Spec.Survey, Spec.Names, Spec.TakeDown, Spec.Create, Spec.MarkShareReady, Classify, AdoptableAgentShare;
    hide Spec.LoadInventory;
    var cls := Classify(s.cr, Spec.LoadInventory(s.net, p.env.zid, p.remoteListed, p.agentAnswers));
    var named := Spec.Names(s, p).s;
    var adopted := AdoptableAgentShare(named.cr, cls, digest);
    if adopted.Some? {
      ShareFrames.MarkFrame(named, adopted.value.token, adopted.value.frontendEndpoints, digest, p);
    }
    ShareFrames.CreateFrame(Spec.TakeDown(named, cls, p).s, digest, p);
  }
}
