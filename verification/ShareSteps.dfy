/** One reconcile of one ZrokShare as a function of what it reads (controller/share_controller.go).
    ShareController.dfy carries the same steps out in place and is proved to agree with this module. */
module ShareSteps {
  import opened Options
  import opened Conditions
  import opened Digest
  import opened Inventory
  import opened Shares
  import opened Targets
  import opened Upstream
  import opened Zrok

  datatype Credential = Token | NoRef | NoSecret | Unreadable

  datatype EnvRead = EnvMissing | EnvUnreadable | Env(ready: bool, zid: string, credential: Credential)

  /** How every read and call of one reconcile turns out. Booleans say that a read answers or a write lands. */
  datatype Plan = Plan(
    now: int,
    errText: string,
    restrictUpstream: bool,
    env: EnvRead,
    basicAuth: Option<seq<string>>,
    resourcesListed: bool,
    finalizerLands: bool,
    noteLands: bool,
    remoteListed: bool,
    agentAnswers: bool,
    createName: Fault,
    reserveName: Fault,
    flush: Fault,
    flushLands: bool,
    releaseAnswers: bool,
    unshare: Fault,
    clearLands: bool,
    recordLands: bool,
    reclaim: Fault,
    reclaimLands: bool,
    share: Fault,
    newToken: string,
    newEndpoints: seq<string>,
    remoteListedAgain: bool,
    agentAnswersAgain: bool,
    releaseAnswersAgain: bool,
    unshareAgain: Fault,
    readyLands: bool,
    digestLands: bool)

  /** The resource and the outside world. */
  datatype St = St(cr: ZrokShare, net: Net)

  datatype Verdict = Settled | Requeued | Errored

  datatype Flow = Done(s: St, verdict: Verdict) | More(s: St)

  // ----- status patches -----

  function WithReady(c: ZrokShare, status: ConditionStatus, reason: Reason, message: string, now: int): seq<Condition> {
    Apply(c.status.conditions, Update(Kind.Ready, status, reason, message, c.generation, now))
  }

  function NotReady(c: ZrokShare, reason: Reason, message: string, now: int): ZrokShare {
    c.(status := c.status.(observedGeneration := c.generation, conditions := WithReady(c, False, reason, message, now)))
  }

  function WaitingForEnvironment(c: ZrokShare, now: int): ZrokShare {
    var waiting := Apply(c.status.conditions,
                         Update(Kind.EnvironmentReady, False, Reason.Waiting, "", c.generation, now));
    NotReady(c.(status := c.status.(conditions := waiting)), Reason.WaitingForEnvironment, "", now)
  }

  function NameNotReady(c: ZrokShare, reason: Reason, message: string, now: int): ZrokShare {
    var unnamed := Apply(c.status.conditions, Update(Kind.NameReady, False, reason, message, c.generation, now));
    NotReady(c.(status := c.status.(conditions := unnamed)), reason, message, now)
  }

  function Cleared(c: ZrokShare, now: int): ZrokShare {
    if c.status.shareToken == "" && c.status.assignedURL == "" then c
    else c.(status := c.status.(shareToken := "", assignedURL := "", frontendEndpoints := [],
                                conditions := WithReady(c, False, Reason.Healing, "", now)))
  }

  function AssignedURL(spec: ShareSpec, token: string, endpoints: seq<string>): string {
    if |endpoints| > 0 then endpoints[0]
    else if spec.shareMode == ShareMode.Private then token
    else ""
  }

  function ReservationOf(spec: ShareSpec): Reservation {
    if DesiredShareMode(spec) == ShareMode.Private then Reservation.Private
    else if ReservedName(spec) != "" then Reserved
    else Reservation.Ephemeral
  }

  function NameReason(spec: ShareSpec): Reason {
    if DesiredShareMode(spec) == ShareMode.Private then Reason.Private
    else if ReservedName(spec) != "" then Reason.NameReserved
    else Reason.Ephemeral
  }

  function ReadyUpdates(c: ZrokShare, now: int): seq<Update> {
    [Update(Kind.NameReady, True, NameReason(c.spec), "", c.generation, now),
     Update(Kind.EnvironmentReady, True, Reason.Ready, "", c.generation, now),
     Update(Kind.ShareCreated, True, Reason.Created, "", c.generation, now),
     Update(Kind.Ready, True, Reason.Ready, "", c.generation, now)]
  }

  function ReadyConditions(c: ZrokShare, now: int): seq<Condition> {
    var u := ReadyUpdates(c, now);
    Apply(Apply(Apply(Apply(c.status.conditions, u[0]), u[1]), u[2]), u[3])
  }

  function Marked(c: ZrokShare, token: string, endpoints: seq<string>, now: int): ZrokShare {
    c.(status := ShareStatus(c.generation, AssignedURL(c.spec, token, endpoints), endpoints, token,
                             ReservationOf(c.spec), ReadyConditions(c, now)))
  }

  // ----- endings -----

  function Noted(s: St, lands: bool, patched: ZrokShare): St {
    if lands then s.(cr := patched) else s
  }

  function EndNotReady(s: St, reason: Reason, message: string, p: Plan, verdict: Verdict): Flow {
    Done(Noted(s, p.noteLands, NotReady(s.cr, reason, message, p.now)), verdict)
  }

  function EndNameConflict(s: St, p: Plan): Flow {
    Done(Noted(s, p.noteLands, NameNotReady(s.cr, Reason.NameConflict, "", p.now)), Requeued)
  }

  function MarkShareReady(s: St, token: string, endpoints: seq<string>, digest: string, p: Plan): Flow {
    if !p.readyLands then Done(s, Errored)
    else
      var marked := Marked(s.cr, token, endpoints, p.now);
      if marked.appliedDigest != digest && !p.digestLands then Done(s.(cr := marked), Errored)
      else Done(s.(cr := marked.(appliedDigest := digest)), Requeued)
  }

  // ----- before anything outside the cluster is touched -----

  predicate InvalidSelection(spec: ShareSpec) {
    || (DesiredShareMode(spec) == ShareMode.Private && spec.nameSelection.Some?)
    || (DesiredShareMode(spec) == Public && spec.privateShareToken != "")
  }

  predicate UpstreamBarred(c: ZrokShare) {
    Judge(c.spec.upstream, c.id.namespace) != Allowed
  }

  function Admit(s: St, rival: bool, p: Plan): Flow {
    if !s.cr.finalizer then
      if p.finalizerLands then Done(s.(cr := s.cr.(finalizer := true)), Settled) else Done(s, Errored)
    else if InvalidSelection(s.cr.spec) then
      EndNotReady(s, Reason.InvalidSpec, "", p, Settled)
    else if p.restrictUpstream && UpstreamBarred(s.cr) then
      EndNotReady(s, Reason.UpstreamNotAllowed, p.errText, p, Settled)
    else if p.restrictUpstream && s.cr.spec.backendMode == SOCKS then
      EndNotReady(s, Reason.BackendModeNotAllowed, "", p, Settled)
    else AdmitEnvironment(s, rival, p)
  }

  function AdmitEnvironment(s: St, rival: bool, p: Plan): Flow {
    if p.env.EnvMissing? then EndNotReady(s, Reason.EnvironmentMissing, p.errText, p, Requeued)
    else if p.env.EnvUnreadable? then Done(s, Errored)
    else if !p.env.ready then Done(Noted(s, p.noteLands, WaitingForEnvironment(s.cr, p.now)), Requeued)
    else if p.env.credential != Token then EndNotReady(s, Reason.SecretError, p.errText, p, Errored)
    else if p.basicAuth.None? then EndNotReady(s, Reason.BasicAuthError, p.errText, p, Errored)
    else if ReservedName(s.cr.spec) != "" && !p.resourcesListed then Done(s, Errored)
    else if ReservedName(s.cr.spec) != "" && rival then
      EndNameConflict(s, p)
    else More(s)
  }

  // ----- what is out there -----

  function LoadInventory(net: Net, zid: string, listed: bool, agentAnswers: bool): Inventory {
    var known := zid != "" && listed;
    Inventory(known, if known then net.remote else [], if agentAnswers then net.agent else [])
  }

  function Survey(s: St, cls: Classified, digest: string, p: Plan): Flow
    requires p.env.Env?
  {
    if p.env.zid != "" && !p.remoteListed then
      var adopted := AdoptableAgentShare(s.cr, cls, digest);
      if adopted.Some? then MarkShareReady(s, adopted.value.token, adopted.value.frontendEndpoints, digest, p)
      else EndNotReady(s, Reason.InventoryError, p.errText, p, Errored)
    else if cls.foreignName then EndNameConflict(s, p)
    else More(s)
  }

  // ----- names -----

  function WantedKey(spec: ShareSpec): NameKey {
    NameKey(NamespaceToken(spec), ReservedName(spec))
  }

  function EnsureReservedName(s: St, p: Plan): Flow {
    if ReservedName(s.cr.spec) == "" then More(s)
    else
      var created := CreateShareName(s.net, WantedKey(s.cr.spec), p.createName);
      var s1 := s.(net := created.net);
      if created.reply != Ok
      then NameRefused(Noted(s1, p.noteLands, NameNotReady(s1.cr, Reason.NameError, p.errText, p.now)), created.reply,
                       p)
      else PromoteName(s1, p)
  }

  function PromoteName(s: St, p: Plan): Flow {
    var reserved := UpdateShareName(s.net, WantedKey(s.cr.spec), p.reserveName);
    var s1 := s.(net := reserved.net);
    if reserved.reply == Ok then More(s1)
    else if reserved.reply == Unauthorized then NameRefused(s1, reserved.reply, p)
    else NameRefused(Noted(s1, p.noteLands, NameNotReady(s1.cr, Reason.ReserveError, p.errText, p.now)),
                     reserved.reply, p)
  }

  function NameRefused(s: St, reply: Reply, p: Plan): Flow {
    if reply == Unauthorized
    then EndNameConflict(s, p)
    else Done(s, Errored)
  }

  /** Patch the reclaim annotation; the write is skipped when nothing changes. */
  function ForgetReclaim(s: St, lands: bool): Flow {
    if s.cr.reclaimName == "" then More(s)
    else if lands then
      More(St(s.cr.(reclaimName := ""), s.net.(log := s.net.log + [ForgotReclaim(s.cr.reclaimName)])))
    else Done(s, Errored)
  }

  function FlushReclaimName(s: St, fault: Fault, lands: bool): Flow {
    if s.cr.reclaimName == "" then More(s)
    else if s.cr.reclaimName == ReservedName(s.cr.spec) then ForgetReclaim(s, lands)
    else
      var deleted := DeleteShareName(s.net, NameKey(NamespaceToken(s.cr.spec), s.cr.reclaimName), fault);
      var s1 := s.(net := deleted.net);
      match deleted.reply
      case Ok => ForgetReclaim(s1, lands)
      case Unauthorized => ForgetReclaim(s1, lands)
      case Attached(_) => Done(s1, Requeued)
      case Failed => Done(s1, Errored)
  }

  // ----- taking down and creating -----

  /** Agent release is best effort; without an environment identity it is all there is. */
  function ReleaseOurs(net: Net, zid: string, token: string, answers: bool, fault: Fault): Answer {
    if token == "" then Answer(net, Ok)
    else
      var released := ReleaseShare(net, token, answers);
      if zid == "" then Answer(released, Ok) else Unshare(released, token, fault)
  }

  function ReleaseAndClear(s: St, token: string, p: Plan): Flow
    requires p.env.Env?
  {
    var released := ReleaseOurs(s.net, p.env.zid, token, p.releaseAnswers, p.unshare);
    var s1 := s.(net := released.net);
    if released.reply != Ok then EndNotReady(s1, Reason.HealError, p.errText, p, Errored)
    else if Cleared(s1.cr, p.now) != s1.cr && !p.clearLands then Done(s1, Errored)
    else More(s1.(cr := Cleared(s1.cr, p.now)))
  }

  function ReclaimPreviousName(s: St, oldName: string, wasReserved: bool, p: Plan): Flow {
    if !wasReserved || oldName == "" || oldName == ReservedName(s.cr.spec) || s.cr.spec.reclaimPolicy == Retain
       then More(s)
    else if s.cr.reclaimName != oldName && !p.recordLands then Done(s, Errored)
    else
      var noted := St(s.cr.(reclaimName := oldName), s.net.(log := s.net.log + [RecordedReclaim(oldName)]));
      FlushReclaimName(noted, p.reclaim, p.reclaimLands)
  }

  function TakeDown(s: St, cls: Classified, p: Plan): Flow
    requires p.env.Env?
  {
    var target := ReleaseTarget(s.cr, cls);
    if target.None? then More(s)
    else
      var released := ReleaseAndClear(s, target.value, p);
      if released.Done? then released
      else ReclaimPreviousName(released.s, LiveFrontendName(s.cr, cls), s.cr.status.reservation == Reserved, p)
  }

  function CreatePrivate(s: St, digest: string, p: Plan): Flow {
    var shared := SharePrivate(s.net, s.cr.id, s.cr.spec, p.share, p.newToken);
    var s1 := s.(net := shared.net);
    if shared.reply != Ok then EndNotReady(s1, Reason.ShareError, p.errText, p, Errored)
    else MarkShareReady(s1, VanityOr(s.cr.spec, p.newToken), [], digest, p)
  }

  function CreatePublic(s: St, digest: string, p: Plan): Flow
    requires p.env.Env?
  {
    var shared := SharePublic(s.net, s.cr.id, s.cr.spec, p.share, p.newToken, p.newEndpoints);
    var s1 := s.(net := shared.net);
    if shared.reply == Ok then MarkShareReady(s1, p.newToken, p.newEndpoints, digest, p)
    else if shared.reply.Attached? && ReservedName(s.cr.spec) != "" then HandleShareConflict(s1, digest, p)
    else EndNotReady(s1, Reason.ShareError, p.errText, p, Errored)
  }

  function HandleShareConflict(s: St, digest: string, p: Plan): Flow
    requires p.env.Env?
  {
    var inv := LoadInventory(s.net, p.env.zid, p.remoteListedAgain, p.agentAnswersAgain);
    var cls := Classify(s.cr, inv);
    var adopted := AdoptableAgentShare(s.cr, cls, digest);
    if p.env.zid != "" && !p.remoteListedAgain then EndNotReady(s, Reason.InventoryError, p.errText, p, Errored)
    else if cls.foreignName then EndNameConflict(s, p)
    else if adopted.Some? then MarkShareReady(s, adopted.value.token, adopted.value.frontendEndpoints, digest, p)
    else if ConflictTarget(s.cr, cls).Some? then ReleaseHolder(s, ConflictTarget(s.cr, cls).value, p)
    else EndNotReady(s, Reason.ShareError, "", p, Requeued)
  }

  /** The share that the conflict handler takes down: the mapped remote share, if it has the desired target. */
  function ConflictTarget(c: ZrokShare, cls: Classified): Option<string> {
    if cls.remote.Some? && TargetsEqual(cls.remote.value.target, c.spec.upstream) then Some(cls.remote.value.token)
       else None
  }

  function ReleaseHolder(s: St, token: string, p: Plan): Flow
    requires p.env.Env?
  {
    var released := ReleaseOurs(s.net, p.env.zid, token, p.releaseAnswersAgain, p.unshareAgain);
    var s1 := s.(net := released.net);
    if released.reply != Ok then EndNotReady(s1, Reason.HealError, p.errText, p, Errored) else Done(s1, Requeued)
  }

  function Create(s: St, digest: string, p: Plan): Flow
    requires p.env.Env?
  {
    if DesiredShareMode(s.cr.spec) == ShareMode.Private then CreatePrivate(s, digest, p) else CreatePublic(s, digest, p)
  }

  // ----- the whole reconcile -----

  /** From the inventory on. */
  function Converge(s: St, digest: string, p: Plan): Flow
    requires p.env.Env?
  {
    var cls := Classify(s.cr, LoadInventory(s.net, p.env.zid, p.remoteListed, p.agentAnswers));
    var surveyed := Survey(s, cls, digest, p);
    if surveyed.Done? then surveyed
    else
      var named := Names(s, p);
      if named.Done? then named
      else
        var adopted := AdoptableAgentShare(named.s.cr, cls, digest);
        if adopted.Some?
        then MarkShareReady(named.s, adopted.value.token, adopted.value.frontendEndpoints, digest, p)
        else
          var down := TakeDown(named.s, cls, p);
          if down.Done? then down else Create(down.s, digest, p)
  }

  function Names(s: St, p: Plan): Flow {
    var ensured := EnsureReservedName(s, p);
    if ensured.Done? then ensured else FlushReclaimName(ensured.s, p.flush, p.flushLands)
  }

  function Reconcile(s: St, rival: bool, p: Plan): Flow {
    var admitted := Admit(s, rival, p);
    if admitted.Done? then admitted
    else Converge(admitted.s, ApplyDigest(s.cr.spec, p.basicAuth.value), p)
  }

  // ----- deletion -----

  /** What deletion knows of the environment; a missing one leaves no identity, no credential and no agent. */
  datatype EnvView = EnvView(zid: string, authorized: bool, reachable: bool)

  function ViewEnv(env: EnvRead): EnvView {
    if env.Env? then EnvView(env.zid, env.credential == Token, true) else EnvView("", false, false)
  }

  /** The share to take down with the resource. Without a token in status, the live holder of an unclaimed name will
      do. */
  function DeletionToken(c: ZrokShare, claimed: bool, inv: Inventory): string {
    if c.status.shareToken != "" || claimed then c.status.shareToken
    else
      var byAgent := AgentByName(inv.agent, ReservedName(c.spec));
      var byName := RemoteByName(inv.remote, ReservedName(c.spec));
      if byAgent.Some? && byAgent.value.token != "" then byAgent.value.token
      else if byName.Some? && TargetsEqual(byName.value.target, c.spec.upstream) then byName.value.token
      else ""
  }

  function DeleteShare(s: St, token: string, inv: Inventory, p: Plan): Flow {
    var env := ViewEnv(p.env);
    if !env.reachable || token == "" || !IsOurShareToken(s.cr, token, inv) then More(s)
    else
      var released := ReleaseShare(s.net, token, p.releaseAnswers);
      var unshared :=
        if env.zid != "" && env.authorized then Unshare(released, token, p.unshare) else Answer(released, Ok);
      var s1 := s.(net := unshared.net);
      if unshared.reply != Ok && unshared.reply != Unauthorized then Done(s1, Errored)
      else if Cleared(s1.cr, p.now) != s1.cr && !p.clearLands then Done(s1, Errored)
      else More(s1.(cr := Cleared(s1.cr, p.now)))
  }

  function DeleteName(s: St, claimed: bool, inv: Inventory, p: Plan): Flow {
    var env := ViewEnv(p.env);
    if !env.authorized || s.cr.spec.reclaimPolicy == Retain || ReservedName(s.cr.spec) == "" || claimed then More(s)
    else
      var deleted := DeleteShareName(s.net, WantedKey(s.cr.spec), p.reclaim);
      var s1 := s.(net := deleted.net);
      match deleted.reply
      case Ok => More(s1)
      case Unauthorized => More(s1)
      case Failed => Done(s1, Errored)
      case Attached(holder) =>
        if IsOurShareToken(s1.cr, holder, inv) then Done(s1.(net := DetachHolder(s1.net, env, holder, p)), Requeued)
        else if env.zid != "" && !inv.listed then Done(s1, Requeued)
        else More(s1)
  }

  function DetachHolder(net: Net, env: EnvView, holder: string, p: Plan): Net {
    var released := ReleaseShare(net, holder, p.releaseAnswersAgain);
    if env.zid != "" then Unshare(released, holder, p.unshareAgain).net else released
  }

  function DropFinalizer(s: St, p: Plan): Flow {
    if p.finalizerLands then Done(s.(cr := s.cr.(finalizer := false)), Settled) else Done(s, Errored)
  }

  /** `rival` says that another live resource claims the name; it goes unnoticed when the list fails. */
  function ReconcileDelete(s: St, rival: bool, p: Plan): Flow {
    if !s.cr.finalizer then Done(s, Settled)
    else if p.env.EnvUnreadable? || (p.env.Env? && p.env.credential == Unreadable) then Done(s, Errored)
    else
      var env := ViewEnv(p.env);
      var inv := LoadInventory(s.net, env.zid, p.remoteListed, p.agentAnswers && env.reachable);
      var claimed := ReservedName(s.cr.spec) != "" && p.resourcesListed && rival;
      var unshared := DeleteShare(s, DeletionToken(s.cr, claimed, inv), inv, p);
      if unshared.Done? then unshared
      else
        var unnamed := DeleteName(unshared.s, claimed, inv, p);
        if unnamed.Done? then unnamed else DropFinalizer(unnamed.s, p)
  }
}
