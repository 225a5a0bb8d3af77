/** In which order a reconcile makes its calls: the name first, then the old share, agent before controller, then the
    new one. */
module CallOrder {
  import Conditions
  import opened Deletion
  import opened Digest
  import FrontendNames
  import opened Inventory
  import opened Options
  import opened ShareFrames
  import opened Shares
  import opened ShareSteps
  import opened Targets
  import opened Zrok

  predicate TouchesShares(e: Event) {
    e.Released? || e.Unshared? || e.Shared?
  }

  ghost predicate SharesUntouched(log: seq<Event>, n: nat) {
    forall i :: n <= i < |log| ==> !TouchesShares(log[i])
  }

  // ----- the name first -----

  /** What is in the log once the wanted name is reserved and the recorded one is settled. */
  function NamesInOrder(c: ZrokShare, gone: Reply): seq<Event> {
    (if c.spec.nameSelection.None? || c.spec.nameSelection.value.name == "" then []
     else
       var NameSelection(namespace, name) := c.spec.nameSelection.value;
       var key := NameKey(if namespace == "" then "public" else namespace, name);
       [CreatedName(key), ReservedIt(key)])
    + (if c.reclaimName == "" then []
       else if c.spec.nameSelection.Some? && c.spec.nameSelection.value.name == c.reclaimName then
         [ForgotReclaim(c.reclaimName)]
       else [DeletedName(NameKey(NamespaceToken(c.spec), c.reclaimName), gone), ForgotReclaim(c.reclaimName)])
  }

  lemma EnsuredInOrder(s: St, p: Plan)
    ensures var r := EnsureReservedName(s, p);
            && SharesUntouched(r.s.net.log, |s.net.log|)
            && (r.More? ==> r.s.cr == s.cr && r.s.net.log == s.net.log + NamesInOrder(s.cr.(reclaimName := ""), Ok))
  {
    hide NameNotReady, PromoteName, NameRefused;
    var key := WantedKey(s.cr.spec);
    var created := CreateShareName(s.net, key, p.createName);
    RefusedLog(s.(net := created.net), created.reply, p);
    PromotedLog(s.(net := created.net), p);
    assert [CreatedName(key), ReservedIt(key)] == [CreatedName(key)] + [ReservedIt(key)];
  }

  lemma RefusedLog(s: St, reply: Reply, p: Plan)
    ensures forall c :: NameRefused(s.(cr := c), reply, p).Done? && NameRefused(s.(cr := c), reply, p).s.net == s.net
  {
    hide NameNotReady;
  }

  lemma PromotedLog(s: St, p: Plan)
    ensures var r := PromoteName(s, p);
            r.s.net.log == s.net.log + [ReservedIt(WantedKey(s.cr.spec))] && (r.More? ==> r.s.cr == s.cr)
  {
    hide NameNotReady, NamespaceToken, ReservedName;
  }

  lemma FlushedInOrder(s: St, fault: Fault, lands: bool)
    ensures var r := FlushReclaimName(s, fault, lands);
            && SharesUntouched(r.s.net.log, |s.net.log|)
            && (r.More? ==>
                  exists gone :: gone in {Ok, Unauthorized} && r.s.net.log == s.net.log + FlushEvents(s.cr, gone))
  {
    hide NamespaceToken, DeleteReply;
    var reply := DeleteReply(s.net, NameKey(NamespaceToken(s.cr.spec), s.cr.reclaimName), fault);
    var r := FlushReclaimName(s, fault, lands);
    if r.More? {
      var gone := if reply in {Ok, Unauthorized} then reply else Ok;
      assert r.s.net.log == s.net.log + FlushEvents(s.cr, gone);
    }
  }

  function FlushEvents(c: ZrokShare, gone: Reply): seq<Event> {
    if c.reclaimName == "" then []
    else if ReservedName(c.spec) == c.reclaimName then [ForgotReclaim(c.reclaimName)]
    else [DeletedName(NameKey(NamespaceToken(c.spec), c.reclaimName), gone), ForgotReclaim(c.reclaimName)]
  }

  lemma BothInOrder(c: ZrokShare, gone: Reply)
    ensures NamesInOrder(c, gone) == NamesInOrder(c.(reclaimName := ""), Ok) + FlushEvents(c, gone)
  {
    hide NamespaceToken;
  }

  /** The names stage is through, and its calls are in the log that `log` goes on from. */
  ghost predicate NamesThrough(s: St, log: seq<Event>) {
    exists gone :: gone in {Ok, Unauthorized} && s.net.log + NamesInOrder(s.cr, gone) <= log
  }

  lemma NamesStage(s: St, p: Plan)
    ensures var r := Names(s, p);
            SharesUntouched(r.s.net.log, |s.net.log|) && (r.More? ==> NamesThrough(s, r.s.net.log))
  {
    hide EnsureReservedName, FlushReclaimName, NamesInOrder, FlushEvents;
    EnsuredInOrder(s, p);
    EnsureFrame(s, p);
    var ensured := EnsureReservedName(s, p);
    if ensured.More? {
      FlushedInOrder(ensured.s, p.flush, p.flushLands);
      FlushFrame(ensured.s, p.flush, p.flushLands);
      var flushed := FlushReclaimName(ensured.s, p.flush, p.flushLands);
      if flushed.More? {
        var gone :| gone in {Ok, Unauthorized} && flushed.s.net.log == ensured.s.net.log + FlushEvents(s.cr, gone);
        BothInOrder(s.cr, gone);
        assert flushed.s.net.log == s.net.log + NamesInOrder(s.cr, gone);
      }
    }
  }

  /** Whatever fails, a reconcile releases, unshares and creates only after the wanted name, if there is one, has been
      created and reserved, and a name recorded for reclaim has been deleted, refused or found wanted again. */
  lemma NamesFirst(s: St, rival: bool, p: Plan)
    ensures var log := Reconcile(s, rival, p).s.net.log; SharesUntouched(log, |s.net.log|) || NamesThrough(s, log)
  {
    hide Admit, Survey, Names, TakeDown, Create, MarkShareReady, Classify, AdoptableAgentShare, ReleaseTarget;
    hide ApplyDigest, NamesThrough, LoadInventory;
    AdmitFrame(s, rival, p);
    if Admit(s, rival, p).More? {
      var digest := ApplyDigest(s.cr.spec, p.basicAuth.value);
      var cls := Classify(s.cr, LoadInventory(s.net, p.env.zid, p.remoteListed, p.agentAnswers));
      SurveyFrame(s, cls, digest, p);
      NamesStage(s, p);
      var named := Names(s, p);
      MarkedLog(named.s, digest, p);
      TakeDownFrame(named.s, cls, p);
      var down := TakeDown(named.s, cls, p);
      CreateFrame(down.s, digest, p);
      if Survey(s, cls, digest, p).More? && named.More? {
        assert named.s.net.log <= down.s.net.log <= Create(down.s, digest, p).s.net.log;
        ThroughLater(s, named.s.net.log, Reconcile(s, rival, p).s.net.log);
      }
    }
  }

  lemma MarkedLog(s: St, digest: string, p: Plan)
    ensures forall token, endpoints :: MarkShareReady(s, token, endpoints, digest, p).s.net == s.net
  {
    hide Marked;
  }

  lemma ThroughLater(s: St, earlier: seq<Event>, later: seq<Event>)
    requires NamesThrough(s, earlier) && earlier <= later
    ensures NamesThrough(s, later)
  {
    hide NamesInOrder;
  }

  // ----- agent before controller -----

  /** From position `n` on, every unshare follows the release of the same share; with `both` every release is
      followed by its unshare, and without it there is none. */
  ghost predicate Paired(log: seq<Event>, n: nat, both: bool) {
    forall i :: n <= i < |log| ==> PairedAt(log, n, both, i)
  }

  predicate PairedAt(log: seq<Event>, n: nat, both: bool, i: nat)
    requires n <= i < |log|
  {
    && (log[i].Unshared? ==> i > n && log[i - 1] == Released(log[i].token))
    && (both && log[i].Released? ==> i + 1 < |log| && log[i + 1].Unshared? && log[i + 1].token == log[i].token)
    && (!both ==> !log[i].Unshared?)
  }

  lemma PairedOn(earlier: seq<Event>, later: seq<Event>, n: nat, both: bool)
    requires n <= |earlier| && earlier <= later && Paired(earlier, n, both) && Paired(later, |earlier|, both)
    ensures Paired(later, n, both)
  {
    forall i | n <= i < |later|
      ensures PairedAt(later, n, both, i)
    {
      if i < |earlier| {
        assert PairedAt(earlier, n, both, i);
        assert later[i] == earlier[i];
        assert i > n ==> later[i - 1] == earlier[i - 1];
        assert i + 1 < |earlier| ==> later[i + 1] == earlier[i + 1];
      } else {
        assert PairedAt(later, |earlier|, both, i);
      }
    }
  }

  lemma NoneToPair(log: seq<Event>, n: nat)
    requires SharesUntouched(log, n)
    ensures forall both :: Paired(log, n, both)
  {}

  lemma ReleasePaired(net: Net, zid: string, token: string, answers: bool, fault: Fault)
    ensures var after := ReleaseOurs(net, zid, token, answers, fault).net;
            net.log <= after.log && Paired(after.log, |net.log|, zid != "")
  {}

  lemma ClearPaired(s: St, token: string, p: Plan)
    requires p.env.Env?
    ensures var log := ReleaseAndClear(s, token, p).s.net.log;
            s.net.log <= log && Paired(log, |s.net.log|, p.env.zid != "")
  {
    hide ReleaseOurs, NotReady, Cleared;
    ReleasePaired(s.net, p.env.zid, token, p.releaseAnswers, p.unshare);
  }

  lemma ReclaimUntouched(s: St, oldName: string, wasReserved: bool, p: Plan)
    ensures var log := ReclaimPreviousName(s, oldName, wasReserved, p).s.net.log;
            s.net.log <= log && SharesUntouched(log, |s.net.log|)
  {
    hide FlushReclaimName;
    ReclaimFrame(s, oldName, wasReserved, p);
    var noted := St(s.cr.(reclaimName := oldName), s.net.(log := s.net.log + [RecordedReclaim(oldName)]));
    FlushedInOrder(noted, p.reclaim, p.reclaimLands);
    FlushFrame(noted, p.reclaim, p.reclaimLands);
  }

  lemma TakeDownPaired(s: St, cls: Classified, p: Plan)
    requires p.env.Env?
    ensures var log := TakeDown(s, cls, p).s.net.log;
            s.net.log <= log && Paired(log, |s.net.log|, p.env.zid != "")
  {
    hide ReleaseAndClear, ReclaimPreviousName, LiveFrontendName, ReleaseTarget, Paired;
    var target := ReleaseTarget(s.cr, cls);
    NoneToPair(s.net.log, |s.net.log|);
    if target.Some? {
      ClearPaired(s, target.value, p);
      var released := ReleaseAndClear(s, target.value, p);
      if released.More? {
        var oldName, wasReserved := LiveFrontendName(s.cr, cls), s.cr.status.reservation == Reserved;
        ReclaimUntouched(released.s, oldName, wasReserved, p);
        var log := ReclaimPreviousName(released.s, oldName, wasReserved, p).s.net.log;
        NoneToPair(log, |released.s.net.log|);
        PairedOn(released.s.net.log, log, |s.net.log|, p.env.zid != "");
      }
    }
  }

  lemma ConflictPaired(s: St, digest: string, p: Plan)
    requires p.env.Env?
    ensures var log := HandleShareConflict(s, digest, p).s.net.log;
            s.net.log <= log && Paired(log, |s.net.log|, p.env.zid != "")
  {
    hide ReleaseOurs, NotReady, NameNotReady, MarkShareReady, Classify, AdoptableAgentShare, ConflictTarget, Paired;
    hide LoadInventory;
    MarkedLog(s, digest, p);
    NoneToPair(s.net.log, |s.net.log|);
    var target := ConflictTarget(s.cr, ConflictView(s, p));
    if target.Some? {
      ReleasePaired(s.net, p.env.zid, target.value, p.releaseAnswersAgain, p.unshareAgain);
    }
  }

  lemma CreatePaired(s: St, digest: string, p: Plan)
    requires p.env.Env?
    ensures var log := Create(s, digest, p).s.net.log;
            s.net.log <= log && Paired(log, |s.net.log|, p.env.zid != "")
  {
    hide HandleShareConflict, NotReady, MarkShareReady, RemoteByName, RemoteByToken, AddShare, Paired;
    AddedUntouched(s);
    NoneToPair(s.net.log, |s.net.log|);
    var private := SharePrivate(s.net, s.cr.id, s.cr.spec, p.share, p.newToken).net;
    var public := SharePublic(s.net, s.cr.id, s.cr.spec, p.share, p.newToken, p.newEndpoints).net;
    MarkedLog(s.(net := private), digest, p);
    MarkedLog(s.(net := public), digest, p);
    if SharePublic(s.net, s.cr.id, s.cr.spec, p.share, p.newToken, p.newEndpoints).reply != Ok {
      assert public == s.net;
      ConflictPaired(s, digest, p);
    }
  }

  lemma AddedUntouched(s: St)
    ensures forall mode, token, endpoints ::
              var log := AddShare(s.net, s.cr.id, s.cr.spec, mode, token, endpoints).log;
              s.net.log <= log && forall both :: Paired(log, |s.net.log|, both)
  {
    hide CreatedRemote, CreatedDetail;
  }

  /** Whatever fails, every unshare of a reconcile comes right after the agent was asked to release the same share; with
      an environment identity every release is followed by its unshare, and without one nothing is unshared. */
  lemma AgentFirst(s: St, rival: bool, p: Plan)
    ensures var log := Reconcile(s, rival, p).s.net.log;
            s.net.log <= log && Paired(log, |s.net.log|, p.env.Env? && p.env.zid != "")
  {
    hide Admit, Survey, Names, TakeDown, Create, MarkShareReady, Classify, AdoptableAgentShare, ApplyDigest, Paired;
    hide LoadInventory;
    AdmitFrame(s, rival, p);
    NoneToPair(s.net.log, |s.net.log|);
    if Admit(s, rival, p).More? {
      var digest, both := ApplyDigest(s.cr.spec, p.basicAuth.value), p.env.zid != "";
      var cls := Classify(s.cr, LoadInventory(s.net, p.env.zid, p.remoteListed, p.agentAnswers));
      SurveyFrame(s, cls, digest, p);
      NamesStage(s, p);
      NamesFrame(s, p);
      var named := Names(s, p);
      NoneToPair(named.s.net.log, |s.net.log|);
      MarkedLog(named.s, digest, p);
      TakeDownPaired(named.s, cls, p);
      var down := TakeDown(named.s, cls, p).s;
      PairedOn(named.s.net.log, down.net.log, |s.net.log|, both);
      CreatePaired(down, digest, p);
      PairedOn(down.net.log, Create(down, digest, p).s.net.log, |s.net.log|, both);
    }
  }

  lemma DeleteSharePaired(s: St, token: string, inv: Inventory, p: Plan)
    ensures var log, env := DeleteShare(s, token, inv, p).s.net.log, ViewEnv(p.env);
            s.net.log <= log && Paired(log, |s.net.log|, env.zid != "" && env.authorized)
  {
    hide IsOurShareToken, Cleared;
  }

  lemma DeleteNamePaired(s: St, claimed: bool, inv: Inventory, p: Plan)
    ensures var log, env := DeleteName(s, claimed, inv, p).s.net.log, ViewEnv(p.env);
            s.net.log <= log && Paired(log, |s.net.log|, env.zid != "" && env.authorized)
  {
    hide IsOurShareToken, DeleteReply, NamespaceToken, ReservedName, DetachHolder, Paired;
    var reply := DeleteReply(s.net, WantedKey(s.cr.spec), p.reclaim);
    var asked := DeleteShareName(s.net, WantedKey(s.cr.spec), p.reclaim).net;
    NoneToPair(s.net.log, |s.net.log|);
    assert SharesUntouched(asked.log, |s.net.log|);
    NoneToPair(asked.log, |s.net.log|);
    if ViewEnv(p.env).authorized && reply.Attached? && IsOurShareToken(s.cr, reply.token, inv) {
      OursIsNamed(s.cr, reply.token, inv);
      DetachPaired(asked, ViewEnv(p.env), reply.token, p);
      var both := ViewEnv(p.env).zid != "" && ViewEnv(p.env).authorized;
      PairedOn(asked.log, DetachHolder(asked, ViewEnv(p.env), reply.token, p).log, |s.net.log|, both);
    }
  }

  lemma DetachPaired(net: Net, env: EnvView, holder: string, p: Plan)
    requires holder != "" && env.authorized
    ensures var log := DetachHolder(net, env, holder, p).log;
            net.log <= log && Paired(log, |net.log|, env.zid != "" && env.authorized)
  {}

  /** The same of a deletion; without a credential it only asks the agent. */
  lemma AgentFirstInDeletion(s: St, rival: bool, p: Plan)
    ensures var log, env := ReconcileDelete(s, rival, p).s.net.log, ViewEnv(p.env);
            s.net.log <= log && Paired(log, |s.net.log|, env.zid != "" && env.authorized)
  {
    hide DeleteShare, DeleteName, DeletionToken, LoadInventory, Paired;
    var env, inv := ViewEnv(p.env), DeletionInventory(s, p);
    var claimed := ReservedName(s.cr.spec) != "" && p.resourcesListed && rival;
    var token, both := DeletionToken(s.cr, claimed, inv), env.zid != "" && env.authorized;
    NoneToPair(s.net.log, |s.net.log|);
    DeleteSharePaired(s, token, inv, p);
    var unshared := DeleteShare(s, token, inv, p).s;
    DeleteNamePaired(unshared, claimed, inv, p);
    PairedOn(unshared.net.log, DeleteName(unshared, claimed, inv, p).s.net.log, |s.net.log|, both);
  }

  // ----- names that are kept -----

  predicate KeepsNames(before: Net, after: Net) {
    forall key :: key in before.names ==> key in after.names
  }

  lemma EnsureKeepsNames(s: St, p: Plan)
    ensures KeepsNames(s.net, EnsureReservedName(s, p).s.net)
  {
    hide NameNotReady, NamespaceToken, ReservedName;
  }

  /** Under policy Retain, with nothing recorded from before, a reconcile gives back no name and records none, whatever
      else it does; nor does a deletion. */
  lemma RetainKeepsNames(s: St, rival: bool, p: Plan)
    requires s.cr.spec.reclaimPolicy == Retain && s.cr.reclaimName == ""
    ensures var t := Reconcile(s, rival, p).s; KeepsNames(s.net, t.net) && t.cr.reclaimName == ""
    ensures var t := ReconcileDelete(s, rival, p).s; KeepsNames(s.net, t.net) && t.cr.reclaimName == ""
  {
    hide Admit, Survey, EnsureReservedName, TakeDown, Create, MarkShareReady, Classify, AdoptableAgentShare;
    hide ApplyDigest, KeepsNames, LoadInventory, ReconcileDelete;
    AdmitFrame(s, rival, p);
    KeepsOn(s.net, s.net, s.net);
    if Admit(s, rival, p).More? {
      var digest := ApplyDigest(s.cr.spec, p.basicAuth.value);
      var cls := Classify(s.cr, LoadInventory(s.net, p.env.zid, p.remoteListed, p.agentAnswers));
      SurveyFrame(s, cls, digest, p);
      EnsureFrame(s, p);
      EnsureKeepsNames(s, p);
      var named := Names(s, p);
      MarkKeeps(named.s, digest, p);
      RetainTakeDown(named.s, cls, p);
      var down := TakeDown(named.s, cls, p);
      TakeDownFrame(named.s, cls, p);
      CreateFrame(down.s, digest, p);
      KeepsOn(s.net, named.s.net, down.s.net);
      KeepsOn(s.net, down.s.net, Create(down.s, digest, p).s.net);
    }
    RetainDeletion(s, rival, p);
  }

  lemma KeepsOn(a: Net, b: Net, c: Net)
    ensures KeepsNames(a, b) && (KeepsNames(b, c) || c.names == b.names) ==> KeepsNames(a, c)
    ensures KeepsNames(a, a)
  {}

  lemma MarkKeeps(s: St, digest: string, p: Plan)
    ensures forall token, endpoints ::
              var t := MarkShareReady(s, token, endpoints, digest, p).s;
              t.net == s.net && t.cr.reclaimName == s.cr.reclaimName
  {
    hide ReadyConditions;
  }

  lemma RetainTakeDown(s: St, cls: Classified, p: Plan)
    requires p.env.Env? && s.cr.spec.reclaimPolicy == Retain
    ensures var t := TakeDown(s, cls, p).s; t.net.names == s.net.names && t.cr.reclaimName == s.cr.reclaimName
  {
    hide ReleaseOurs, Conditions.Apply, ReleaseTarget, LiveFrontendName;
    var target := ReleaseTarget(s.cr, cls);
    if target.Some? {
      ReleaseFrame(s.net, p.env.zid, target.value, p.releaseAnswers, p.unshare);
    }
  }

  lemma RetainDeletion(s: St, rival: bool, p: Plan)
    requires s.cr.spec.reclaimPolicy == Retain && s.cr.reclaimName == ""
    ensures var t := ReconcileDelete(s, rival, p).s; KeepsNames(s.net, t.net) && t.cr.reclaimName == ""
  {
    hide IsOurShareToken, DeletionToken, Conditions.Apply, LoadInventory;
  }

  // ----- what is recorded for reclaim -----

  ghost predicate NothingRecorded(log: seq<Event>, n: nat) {
    forall i :: n <= i < |log| ==> !log[i].RecordedReclaim?
  }

  /** The first of several readings that yields a name. */
  function FirstName(names: seq<string>): string {
    if names == [] then "" else if names[0] != "" then names[0] else FirstName(names[1..])
  }

  lemma LiveNameIsFirst(c: ZrokShare, cls: Classified)
    ensures LiveFrontendName(c, cls)
         == FirstName([FrontendNames.FrontendNameFromEndpoints(
                         if cls.agent.Some? then cls.agent.value.frontendEndpoints else []),
                       FrontendNames.FrontendNameFromEndpoints(
                         if cls.remote.Some? then cls.remote.value.frontendEndpoints else []),
                       FrontendNames.FrontendNameFromEndpoint(c.status.assignedURL)])
  {
    hide FrontendNames.FrontendNameFromEndpoint, FrontendNames.FrontendNameFromEndpoints;
    var fromAgent := FrontendNames.FrontendNameFromEndpoints(
      if cls.agent.Some? then cls.agent.value.frontendEndpoints else []);
    var fromRemote := FrontendNames.FrontendNameFromEndpoints(
      if cls.remote.Some? then cls.remote.value.frontendEndpoints else []);
    NoEndpointNoName();
    FirstOfThree(fromAgent, fromRemote, FrontendNames.FrontendNameFromEndpoint(c.status.assignedURL));
  }

  lemma NoEndpointNoName()
    ensures FrontendNames.FrontendNameFromEndpoints([]) == ""
  {}

  lemma FirstOfThree(a: string, b: string, c: string)
    ensures FirstName([a, b, c]) == if a != "" then a else if b != "" then b else c
  {
    assert [a, b, c][1..] == [b, c] && [b, c][1..] == [c] && [c][1..] == [];
    assert FirstName([c]) == c;
    assert FirstName([b, c]) == if b != "" then b else c;
  }

  /** `name` may be recorded when the share of `c` is taken down. */
  ghost predicate MayRecord(c: ZrokShare, cls: Classified, name: string) {
    && c.status.reservation == Reserved && c.spec.reclaimPolicy != Retain && name != ""
    && (c.spec.nameSelection.Some? ==> name != c.spec.nameSelection.value.name)
    && name == FirstName([FrontendNames.FrontendNameFromEndpoints(
                            if cls.agent.Some? then cls.agent.value.frontendEndpoints else []),
                          FrontendNames.FrontendNameFromEndpoints(
                            if cls.remote.Some? then cls.remote.value.frontendEndpoints else []),
                          FrontendNames.FrontendNameFromEndpoint(c.status.assignedURL)])
  }

  lemma NamesRecordNothing(s: St, p: Plan)
    ensures NothingRecorded(Names(s, p).s.net.log, |s.net.log|)
  {
    hide NameNotReady, DeleteReply, NamespaceToken, ReservedName, EnsureReservedName;
    EnsureRecordsNothing(s, p);
  }

  lemma EnsureRecordsNothing(s: St, p: Plan)
    ensures NothingRecorded(EnsureReservedName(s, p).s.net.log, |s.net.log|)
    ensures s.net.log <= EnsureReservedName(s, p).s.net.log
  {
    hide NameNotReady, NamespaceToken, ReservedName;
  }

  /** Taking a share down records no name but its own, and only where that is to be reclaimed. */
  lemma TakeDownRecords(s: St, cls: Classified, p: Plan)
    requires p.env.Env?
    ensures var log := TakeDown(s, cls, p).s.net.log;
            forall i :: |s.net.log| <= i < |log| && log[i].RecordedReclaim? ==> MayRecord(s.cr, cls, log[i].name)
  {
    hide ReleaseAndClear, FlushReclaimName, LiveFrontendName, ReleaseTarget, FirstName;
    hide FrontendNames.FrontendNameFromEndpoint, FrontendNames.FrontendNameFromEndpoints;
    var target := ReleaseTarget(s.cr, cls);
    LiveNameIsFirst(s.cr, cls);
    if target.Some? {
      ClearRecordsNothing(s, target.value, p);
      var released := ReleaseAndClear(s, target.value, p);
      if released.More? {
        var oldName := LiveFrontendName(s.cr, cls);
        var noted := St(released.s.cr.(reclaimName := oldName),
                        released.s.net.(log := released.s.net.log + [RecordedReclaim(oldName)]));
        FlushRecordsNothing(noted, p.reclaim, p.reclaimLands);
      }
    }
  }

  lemma ClearRecordsNothing(s: St, token: string, p: Plan)
    requires p.env.Env?
    ensures var r := ReleaseAndClear(s, token, p);
            s.net.log <= r.s.net.log && NothingRecorded(r.s.net.log, |s.net.log|)
            && r.s.cr.spec == s.cr.spec
  {
    hide Conditions.Apply;
  }

  lemma FlushRecordsNothing(s: St, fault: Fault, lands: bool)
    ensures var log := FlushReclaimName(s, fault, lands).s.net.log;
            s.net.log <= log && NothingRecorded(log, |s.net.log|)
  {
    hide DeleteReply, NamespaceToken, ReservedName;
  }

  lemma CreateRecordsNothing(s: St, digest: string, p: Plan)
    requires p.env.Env?
    ensures NothingRecorded(Create(s, digest, p).s.net.log, |s.net.log|)
  {
    hide NotReady, NameNotReady, MarkShareReady, Classify, AdoptableAgentShare, ConflictTarget, LoadInventory;
    hide RemoteByName, RemoteByToken, CreatedRemote, CreatedDetail, CreatePublic;
    MarkedLog(s.(net := SharePrivate(s.net, s.cr.id, s.cr.spec, p.share, p.newToken).net), digest, p);
    CreatePublicRecordsNothing(s, digest, p);
  }

  lemma CreatePublicRecordsNothing(s: St, digest: string, p: Plan)
    requires p.env.Env?
    ensures NothingRecorded(CreatePublic(s, digest, p).s.net.log, |s.net.log|)
  {
    hide NotReady, HandleShareConflict, MarkShareReady, RemoteByName, CreatedRemote, CreatedDetail;
    var public := SharePublic(s.net, s.cr.id, s.cr.spec, p.share, p.newToken, p.newEndpoints);
    MarkedLog(s.(net := public.net), digest, p);
    if public.reply != Ok {
      ConflictRecordsNothing(s, digest, p);
    }
  }

  lemma ConflictRecordsNothing(s: St, digest: string, p: Plan)
    requires p.env.Env?
    ensures NothingRecorded(HandleShareConflict(s, digest, p).s.net.log, |s.net.log|)
  {
    hide NotReady, NameNotReady, MarkShareReady, Classify, AdoptableAgentShare, ConflictTarget, LoadInventory;
    MarkedLog(s, digest, p);
  }

  /** Whatever fails, a reconcile records for reclaim only the name its reserved share was live under, read off the
      agent, else the remote share, else the URL in status; never the wanted one, and never under policy Retain. */
  lemma RecordedOnlyFor(s: St, rival: bool, p: Plan, name: string)
    requires p.env.Env? && Happened(s, Reconcile(s, rival, p).s, RecordedReclaim(name))
    ensures MayRecord(s.cr, Classify(s.cr, LoadInventory(s.net, p.env.zid, p.remoteListed, p.agentAnswers)), name)
  {
    hide Admit, Survey, Names, TakeDown, Create, MarkShareReady, Classify, AdoptableAgentShare, ReleaseTarget;
    hide ApplyDigest, LoadInventory, FirstName, FrontendNames.FrontendNameFromEndpoint;
    hide FrontendNames.FrontendNameFromEndpoints;
    AdmitFrame(s, rival, p);
    var i :| |s.net.log| <= i < |Reconcile(s, rival, p).s.net.log|
             && Reconcile(s, rival, p).s.net.log[i] == RecordedReclaim(name);
    if Admit(s, rival, p).More? {
      var digest := ApplyDigest(s.cr.spec, p.basicAuth.value);
      var cls := Classify(s.cr, LoadInventory(s.net, p.env.zid, p.remoteListed, p.agentAnswers));
      SurveyFrame(s, cls, digest, p);
      NamesFrame(s, p);
      NamesRecordNothing(s, p);
      var named := Names(s, p);
      MarkedLog(named.s, digest, p);
      TakeDownFrame(named.s, cls, p);
      TakeDownRecords(named.s, cls, p);
      var down := TakeDown(named.s, cls, p);
      CreateFrame(down.s, digest, p);
      CreateRecordsNothing(down.s, digest, p);
    }
  }
}
