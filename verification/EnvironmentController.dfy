/** The environment controller as it runs (controller/environment_controller.go): enabling and adopting in place,
    the Ready condition, and deletion. */
module EnvironmentController {
  import opened Options
  import opened Conditions
  import opened EnvironmentProtocol

  datatype Verdict = Settled | Requeued | Errored

  /** The environment resource, its status.envZID aside. */
  datatype Resource = Resource(
    generation: int,
    finalizer: bool,
    observedGeneration: int,
    uniqueID: string,
    agentService: string,
    agentReady: bool,
    conditions: seq<Condition>)

  datatype State = State(resource: Resource, store: Store)

  datatype End = End(state: State, verdict: Verdict)

  /** How every read and call of one reconcile turns out. `uniqueID` is the one from the spec or from the cluster,
      and `agentService` the address of the environment's Service. `broken` names the first of the owned objects that
      cannot be brought up to date, or the deployment that cannot be read. */
  datatype Plan = Plan(
    now: int,
    errText: string,
    finalizerLands: bool,
    tokenRead: bool,
    imageAllowed: bool,
    endpointAllowed: bool,
    uniqueID: string,
    agentService: string,
    calls: Calls,
    broken: Option<Reason>,
    agentUp: bool,
    agentAnswers: bool,
    noteLands: bool,
    statusLands: bool,
    sharesListed: bool,
    disabled: bool,
    secretDropped: bool)

  // ----- what the steps do -----

  function With(r: Resource, agentReady: bool, updates: seq<Update>): Resource {
    r.(observedGeneration := r.generation, agentReady := agentReady, conditions := Wrote(r.conditions, updates))
  }

  function Wrote(conditions: seq<Condition>, updates: seq<Update>): seq<Condition>
    decreases |updates|
  {
    if updates == [] then conditions else Wrote(Apply(conditions, updates[0]), updates[1..])
  }

  function Unready(s: State, reason: Reason, message: string, p: Plan): State {
    if p.noteLands
    then s.(resource :=
              With(s.resource, false, [Update(Kind.Ready, False, reason, message, s.resource.generation, p.now)]))
    else s
  }

  /** The status of an environment whose objects are in place. */
  function AgentUpdates(r: Resource, p: Plan): seq<Update> {
    if !p.agentUp then
      [Update(Kind.AgentReady, False, Reason.Waiting, "", r.generation, p.now),
       Update(Kind.Enabled, True, Reason.Enabled, "", r.generation, p.now),
       Update(Kind.Ready, False, Reason.WaitingForAgent, "", r.generation, p.now)]
    else if !p.agentAnswers then
      [Update(Kind.AgentReady, False, Reason.ConsoleUnreachable, p.errText, r.generation, p.now),
       Update(Kind.Ready, False, Reason.ConsoleUnreachable, p.errText, r.generation, p.now)]
    else
      [Update(Kind.AgentReady, True, Reason.Ready, "", r.generation, p.now),
       Update(Kind.Enabled, True, Reason.Enabled, "", r.generation, p.now),
       Update(Kind.Ready, True, Reason.Ready, "", r.generation, p.now)]
  }

  function Reported(s: State, p: Plan): End {
    if !p.statusLands then End(s, Errored)
    else
      var served := s.resource.(agentService := p.agentService);
      End(s.(resource := With(served, p.agentUp && p.agentAnswers, AgentUpdates(s.resource, p))), Requeued)
  }

  /** A new identity got as far as the status, which then also says how it was obtained. */
  predicate Records(s: Store, c: Calls) {
    c.read && s.secret.None? && c.enable.Some? && c.create && c.write
  }

  function Ensured(s: State, p: Plan): State {
    var ensured := s.(store := EnsureEnabled(s.store, p.calls).store);
    if Records(s.store, p.calls) then ensured.(resource := Stamped(s.resource, p)) else ensured
  }

  function Stamped(r: Resource, p: Plan): Resource {
    r.(uniqueID := p.uniqueID,
         conditions := Apply(r.conditions, Update(Kind.Enabled, True, Reason.Enabled, "", r.generation, p.now)))
  }

  function Reconciled(s: State, p: Plan): End {
    if !s.resource.finalizer then
      if p.finalizerLands then End(s.(resource := s.resource.(finalizer := true)), Settled) else End(s, Errored)
    else if !p.tokenRead then End(Unready(s, Reason.SecretError, p.errText, p), Errored)
    else if !p.imageAllowed then End(Unready(s, Reason.ImageNotAllowed, p.errText, p), Requeued)
    else
      var s1 := Ensured(s, p);
      if !EnsureEnabled(s.store, p.calls).phase.ok then
        if !p.endpointAllowed then End(Unready(s1, Reason.EndpointNotAllowed, p.errText, p), Requeued)
        else End(Unready(s1, Reason.EnableError, p.errText, p), Errored)
      else if p.broken.Some? then End(Unready(s1, p.broken.value, p.errText, p), Errored)
      else Reported(s1, p)
  }

  // ----- deletion -----

  /** A share, as far as environment deletion looks at it. */
  datatype Dependent = Dependent(environment: string, deleting: bool)

  predicate Blocks(d: Dependent, name: string) {
    d.environment == name && !d.deleting
  }

  predicate Blocked(shares: seq<Dependent>, name: string) {
    exists i :: 0 <= i < |shares| && Blocks(shares[i], name)
  }

  /** A blocked environment only reports so, leaving observedGeneration and agentReady alone. */
  function ReportedBlocked(s: State, p: Plan): State {
    if !p.noteLands then s
    else
      var u := Update(Kind.Ready, False, Reason.SharesExist, p.errText, s.resource.generation, p.now);
      s.(resource := s.resource.(conditions := Apply(s.resource.conditions, u)))
  }

  function Deleted(s: State, name: string, shares: seq<Dependent>, retain: bool, p: Plan): End {
    if !s.resource.finalizer then End(s, Settled)
    else if !p.sharesListed then End(s, Errored)
    else if Blocked(shares, name) then End(ReportedBlocked(s, p), Requeued)
    else if !retain && s.store.envZID != "" && !(p.tokenRead && p.disabled) then End(s, Errored)
    else
      var s1 := s.(store := Teardown(s.store, retain, p.secretDropped));
      if p.finalizerLands then End(s1.(resource := s.resource.(finalizer := false)), Settled) else End(s1, Errored)
  }

  // ----- what they guarantee -----

  /** Success of ensureEnabled means that the trusted Secret and the status agree. */
  lemma EnabledMeansRecorded(s: Store, c: Calls)
    requires EnsureEnabled(s, c).phase.ok && c.enable != Some("")
    ensures var t := EnsureEnabled(s, c).store;
            t.secret.Some? && Trusted(t.secret.value) && t.envZID == t.secret.value.zid
  {
    var first := NextOf(s, Reading(s.envZID), c);
    var second := NextOf(first.store, first.phase, c);
    var third := NextOf(second.store, second.phase, c);
    var fourth := NextOf(third.store, third.phase, c);
    var _ := NextOf(fourth.store, fourth.phase, c);
  }

  lemma {:induction false} LastWriteShows(conditions: seq<Condition>, updates: seq<Update>, i: nat)
    requires i < |updates| && forall j :: i < j < |updates| ==> updates[j].kind != updates[i].kind
    ensures IsTrue(Wrote(conditions, updates), updates[i].kind) == (updates[i].status == True)
    decreases |updates|
  {
    if i == 0 {
      ApplyLookup(conditions, updates[0], updates[0].kind);
      OthersUntouched(Apply(conditions, updates[0]), updates[1..], updates[0].kind);
    } else {
      LastWriteShows(Apply(conditions, updates[0]), updates[1..], i - 1);
    }
  }

  lemma {:induction false} OthersUntouched(conditions: seq<Condition>, updates: seq<Update>, kind: Kind)
    requires forall j :: 0 <= j < |updates| ==> updates[j].kind != kind
    ensures Lookup(Wrote(conditions, updates), kind) == Lookup(conditions, kind)
    decreases |updates|
  {
    if updates != [] {
      ApplyLookup(conditions, updates[0], kind);
      OthersUntouched(Apply(conditions, updates[0]), updates[1..], kind);
    }
  }

  lemma WroteFew(conditions: seq<Condition>, a: Update, b: Update, c: Update)
    ensures Wrote(conditions, [a]) == Apply(conditions, a)
    ensures Wrote(conditions, [a, b]) == Apply(Apply(conditions, a), b)
    ensures Wrote(conditions, [a, b, c]) == Apply(Apply(Apply(conditions, a), b), c)
  {
    hide Apply;
    var after := Apply(conditions, a);
    assert [a][1..] == [] && [a, b][1..] == [b] && [b][1..] == [] && [a, b, c][1..] == [b, c] && [b, c][1..] == [c]
        && [c][1..] == [];
    assert Wrote(after, [b]) == Apply(after, b);
    assert Wrote(after, [b, c]) == Wrote(Apply(after, b), [c]);
  }

  lemma NotReadyShows(s: State, reason: Reason, message: string, p: Plan)
    requires p.noteLands
    ensures var t := Unready(s, reason, message, p);
            !IsTrue(t.resource.conditions, Kind.Ready) && !t.resource.agentReady
  {
    hide Wrote, IsTrue;
    LastWriteShows(s.resource.conditions,
                   [Update(Kind.Ready, False, reason, message, s.resource.generation, p.now)], 0);
  }

  lemma ReportShows(s: State, p: Plan)
    requires p.statusLands
    ensures var t, up := Reported(s, p).state.resource, p.agentUp && p.agentAnswers;
            && t.agentReady == up && IsTrue(t.conditions, Kind.Ready) == up
            && IsTrue(t.conditions, Kind.AgentReady) == up
            && (up ==> IsTrue(t.conditions, Kind.Enabled))
  {
    hide Wrote, IsTrue;
    var updates := AgentUpdates(s.resource, p);
    LastWriteShows(s.resource.conditions, updates, |updates| - 1);
    LastWriteShows(s.resource.conditions, updates, 0);
    if p.agentUp && p.agentAnswers {
      LastWriteShows(s.resource.conditions, updates, 1);
    }
  }

  /** From any state whatever, a reconcile past the finalizer whose status writes land reports Ready exactly when
      everything succeeded; Ready then comes with Enabled, AgentReady, and the trusted Secret's identity in status. */
  lemma ReadyIsHonest(s: State, p: Plan)
    requires s.resource.finalizer && p.noteLands && p.statusLands && p.calls.enable != Some("")
    ensures var t := Reconciled(s, p).state;
            var ready := IsTrue(t.resource.conditions, Kind.Ready);
            && (ready <==> p.tokenRead && p.imageAllowed && EnsureEnabled(s.store, p.calls).phase.ok && p.broken.None?
                           && p.agentUp && p.agentAnswers)
            && t.resource.agentReady == ready
            && (ready ==> IsTrue(t.resource.conditions, Kind.Enabled) && IsTrue(t.resource.conditions, Kind.AgentReady)
                          && t.store.secret.Some? && Trusted(t.store.secret.value)
                          && t.store.envZID == t.store.secret.value.zid)
  {
    hide IsTrue, Unready, Reported, EnsureEnabled, Records;
    var ensured := EnsureEnabled(s.store, p.calls);
    var s1 := Ensured(s, p);
    NotReadyShows(s, Reason.SecretError, p.errText, p);
    NotReadyShows(s, Reason.ImageNotAllowed, p.errText, p);
    NotReadyShows(s1, Reason.EndpointNotAllowed, p.errText, p);
    NotReadyShows(s1, Reason.EnableError, p.errText, p);
    if p.broken.Some? {
      NotReadyShows(s1, p.broken.value, p.errText, p);
    }
    ReportShows(s1, p);
    if ensured.phase.ok {
      EnabledMeansRecorded(s.store, p.calls);
    }
    StoreKept(s1, p);
  }

  lemma StoreKept(s: State, p: Plan)
    ensures Reported(s, p).state.store == s.store
  {}

  /** Without the finalizer, without the enable token, or with an agent image that is not allowed, a reconcile enables
      and records nothing, and says why; past these it does to the store what ensureEnabled does, and no more. Only a
      reconcile that just added the finalizer does not ask to come back. */
  lemma NothingEnabledUnlessAdmitted(s: State, p: Plan)
    ensures Reconciled(s, p).verdict == Settled <==> !s.resource.finalizer && p.finalizerLands
    ensures var t := Reconciled(s, p).state;
            if s.resource.finalizer && p.tokenRead && p.imageAllowed
               then t.store == EnsureEnabled(s.store, p.calls).store
            else && t.store == s.store && t.resource.uniqueID == s.resource.uniqueID
                 && t.resource.agentService == s.resource.agentService
                 && (s.resource.finalizer && p.noteLands ==>
                       && !t.resource.agentReady && !IsTrue(t.resource.conditions, Kind.Ready)
                       && ReasonOf(t.resource.conditions, Kind.Ready)
                          == if p.tokenRead then Reason.ImageNotAllowed else Reason.SecretError)
  {
    hide Apply, Lookup, EnsureEnabled;
    StoreKept(Ensured(s, p), p);
    var first := Update(Kind.Ready, False, Reason.SecretError, p.errText, s.resource.generation, p.now);
    var second := Update(Kind.Ready, False, Reason.ImageNotAllowed, p.errText, s.resource.generation, p.now);
    WroteFew(s.resource.conditions, first, first, first);
    WroteFew(s.resource.conditions, second, second, second);
    ApplyLookup(s.resource.conditions, first, Kind.Ready);
    ApplyLookup(s.resource.conditions, second, Kind.Ready);
  }

  /** Why a reconcile past the gate is not ready, and what else it records: how the identity was obtained when it is a
      new one, and the agent's address once all objects are in place. */
  lemma WhatIsReported(s: State, p: Plan)
    requires s.resource.finalizer && p.tokenRead && p.imageAllowed && p.noteLands && p.statusLands
    ensures var t, ok := Reconciled(s, p).state.resource, EnsureEnabled(s.store, p.calls).phase.ok;
            && t.observedGeneration == s.resource.generation
            && t.uniqueID == (if s.store.secret.None? && ok then p.uniqueID else s.resource.uniqueID)
            && t.agentService == (if ok && p.broken.None? then p.agentService else s.resource.agentService)
            && ReasonOf(t.conditions, Kind.Ready)
               == if !ok then if p.endpointAllowed then Reason.EnableError else Reason.EndpointNotAllowed
                  else if p.broken.Some? then p.broken.value
                  else if !p.agentUp then Reason.WaitingForAgent
                  else if !p.agentAnswers then Reason.ConsoleUnreachable else Reason.Ready
  {
    hide Apply, Lookup, EnsureEnabled, Wrote;
    RecordsExactly(s.store, p.calls);
    var s1 := Ensured(s, p);
    UnreadyShows(s1, Reason.EndpointNotAllowed, p);
    UnreadyShows(s1, Reason.EnableError, p);
    if p.broken.Some? {
      UnreadyShows(s1, p.broken.value, p);
    }
    LastReasonShows(s1.resource.conditions, AgentUpdates(s1.resource, p));
  }

  /** What the agent's state adds to status once all objects are in place. An agent that is up but does not answer says
      nothing about Enabled, which stays what it was. */
  lemma AgentIsReported(s: State, p: Plan)
    requires s.resource.finalizer && p.tokenRead && p.imageAllowed && p.statusLands
    requires EnsureEnabled(s.store, p.calls).phase.ok && p.broken.None?
    ensures var t := Reconciled(s, p).state.resource;
            && ReasonOf(t.conditions, Kind.AgentReady)
               == (if !p.agentUp then Reason.Waiting
                   else if !p.agentAnswers then Reason.ConsoleUnreachable else Reason.Ready)
            && t.agentReady == IsTrue(t.conditions, Kind.AgentReady) == (p.agentUp && p.agentAnswers)
            && (if p.agentUp && !p.agentAnswers
                then Lookup(t.conditions, Kind.Enabled) == Lookup(Ensured(s, p).resource.conditions, Kind.Enabled)
                else IsTrue(t.conditions, Kind.Enabled))
  {
    hide Apply, Lookup, EnsureEnabled, Wrote;
    var s1 := Ensured(s, p);
    var conditions, u := s1.resource.conditions, AgentUpdates(s1.resource, p);
    var last := if p.agentUp && !p.agentAnswers then u[1] else u[2];
    WroteFew(conditions, u[0], u[1], last);
    assert u == if p.agentUp && !p.agentAnswers then [u[0], u[1]] else [u[0], u[1], last];
    ThreeShow(conditions, u[0], u[1], last, Kind.AgentReady);
    ThreeShow(conditions, u[0], u[1], last, Kind.Enabled);
  }

  /** The last of up to three updates to a type shows. */
  lemma ThreeShow(conditions: seq<Condition>, a: Update, b: Update, c: Update, kind: Kind)
    ensures var two := Lookup(Apply(Apply(conditions, a), b), kind);
            if b.kind == kind then two.Some? && two.value.status == b.status && two.value.reason == b.reason
            else if a.kind == kind then two.Some? && two.value.status == a.status && two.value.reason == a.reason
            else two == Lookup(conditions, kind)
    ensures c.kind != kind ==>
              Lookup(Apply(Apply(Apply(conditions, a), b), c), kind) == Lookup(Apply(Apply(conditions, a), b), kind)
  {
    hide Apply, Lookup;
    ApplyLookup(conditions, a, kind);
    ApplyLookup(Apply(conditions, a), b, kind);
    ApplyLookup(Apply(Apply(conditions, a), b), c, kind);
  }

  lemma RecordsExactly(s: Store, c: Calls)
    ensures Records(s, c) <==> s.secret.None? && EnsureEnabled(s, c).phase.ok
  {
    hide EnsureEnabled;
    if s.secret.None? {
      NoSecretEnables(s, c);
    }
  }

  lemma UnreadyShows(s: State, reason: Reason, p: Plan)
    requires p.noteLands
    ensures ReasonOf(Unready(s, reason, p.errText, p).resource.conditions, Kind.Ready) == reason
  {
    hide Apply, Lookup, Wrote;
    LastReasonShows(s.resource.conditions,
                    [Update(Kind.Ready, False, reason, p.errText, s.resource.generation, p.now)]);
  }

  lemma {:induction false} LastReasonShows(conditions: seq<Condition>, updates: seq<Update>)
    requires updates != []
    ensures ReasonOf(Wrote(conditions, updates), updates[|updates| - 1].kind) == updates[|updates| - 1].reason
    decreases |updates|
  {
    if |updates| == 1 {
      ApplyLookup(conditions, updates[0], updates[0].kind);
    } else {
      LastReasonShows(Apply(conditions, updates[0]), updates[1..]);
    }
  }

  /** Any number of reconciles. */
  function ReconciledOften(s: State, plans: seq<Plan>): State {
    if plans == [] then s
    else Reconciled(ReconciledOften(s, plans[..|plans| - 1]), plans[|plans| - 1]).state
  }

  /** So an environment whose image is never allowed never gets an identity, however often it is reconciled. */
  lemma {:induction false} NeverAllowedNeverEnabled(s: State, plans: seq<Plan>)
    requires forall i :: 0 <= i < |plans| ==> !plans[i].imageAllowed
    ensures ReconciledOften(s, plans).store == s.store
  {
    hide Reconciled;
    if plans != [] {
      NeverAllowedNeverEnabled(s, plans[..|plans| - 1]);
      NothingEnabledUnlessAdmitted(ReconciledOften(s, plans[..|plans| - 1]), plans[|plans| - 1]);
    }
  }

  /** Deletion touches the store exactly when the list of shares is read, none that lives refers to the environment,
      and the identity in status is to be retained or could be disabled; until then the finalizer stays. Of the status
      it changes the Ready condition, and only to say which share is in the way. */
  lemma DeletionExactly(s: State, name: string, shares: seq<Dependent>, retain: bool, p: Plan)
    requires s.resource.finalizer
    ensures var t, zid := Deleted(s, name, shares, retain, p).state, s.store.envZID;
            if p.sharesListed && (forall d :: d in shares && d.environment == name ==> d.deleting)
               && (retain || zid == "" || (p.tokenRead && p.disabled))
            then && (t.resource.finalizer <==> !p.finalizerLands) && t.store.envZID == zid
                 && t.store.enabled == (if retain || zid == "" then s.store.enabled else s.store.enabled - {zid})
                 && t.store.secret == if p.secretDropped then None else s.store.secret
            else t.resource.finalizer && t.store == s.store
    ensures var t := Deleted(s, name, shares, retain, p).state.resource;
            if p.sharesListed && p.noteLands && exists d :: d in shares && d.environment == name && !d.deleting
            then t == s.resource.(conditions := t.conditions) && !IsTrue(t.conditions, Kind.Ready)
                 && ReasonOf(t.conditions, Kind.Ready) == Reason.SharesExist
            else t == s.resource.(finalizer := t.finalizer)
  {
    hide Apply, Lookup;
    ApplyLookup(s.resource.conditions,
                Update(Kind.Ready, False, Reason.SharesExist, p.errText, s.resource.generation, p.now), Kind.Ready);
    if Blocked(shares, name) {
      var i :| 0 <= i < |shares| && Blocks(shares[i], name);
      assert shares[i] in shares;
    }
  }

  /** The finalizer goes only when no live share refers to the environment and the identity that status names is
      disabled or to be retained. */
  lemma DeletionContract(s: State, name: string, shares: seq<Dependent>, retain: bool, p: Plan)
    requires s.resource.finalizer && !Deleted(s, name, shares, retain, p).state.resource.finalizer
    ensures !Blocked(shares, name)
    ensures !retain && s.store.envZID != "" ==>
              s.store.envZID !in Deleted(s, name, shares, retain, p).state.store.enabled
  {
    hide Apply;
  }

  /** Deletion of a quiet environment under policy Delete leaves no identity enabled, exactly when status names it. */
  lemma DeletionLeavesNothing(s: State, name: string, shares: seq<Dependent>, p: Plan)
    requires Quiet(s.store) && s.resource.finalizer
    requires !Deleted(s, name, shares, false, p).state.resource.finalizer
    ensures Deleted(s, name, shares, false, p).state.store.enabled == {}
            <==> Identity(s.store.secret) == {} || s.store.envZID != ""
  {
    hide Apply;
    TeardownMisses(s.store, p.secretDropped);
  }

  // ----- the reconciler -----

  class EnvironmentReconciler {
    // the resource
    var generation: int
    var finalizer: bool
    var observedGeneration: int
    var uniqueID: string
    var agentService: string
    var agentReady: bool
    var conditions: seq<Condition>
    var envZID: string
    // the Secret under the environment's name, and the identities enabled in the zrok account
    var secret: Option<Secret>
    var enabled: set<string>

    constructor (s: State)
      ensures Now() == s
    {
      generation, finalizer, observedGeneration :=
        s.resource.generation, s.resource.finalizer, s.resource.observedGeneration;
      uniqueID, agentService := s.resource.uniqueID, s.resource.agentService;
      agentReady, conditions := s.resource.agentReady, s.resource.conditions;
      envZID, secret, enabled := s.store.envZID, s.store.secret, s.store.enabled;
    }

    ghost function Now(): State
      reads this
    {
      State(Resource(generation, finalizer, observedGeneration, uniqueID, agentService, agentReady, conditions),
            Store(envZID, secret, enabled))
    }

    method SetCondition(kind: Kind, status: ConditionStatus, reason: Reason, message: string, now: int)
      modifies this`conditions
      ensures conditions == Apply(old(conditions), Update(kind, status, reason, message, generation, now))
    {
      var list := new ConditionList(conditions);
      list.SetCondition(Update(kind, status, reason, message, generation, now));
      conditions := list.items;
    }

    method SetNotReady(reason: Reason, message: string, p: Plan)
      modifies this
      ensures Now() == Unready(old(Now()), reason, message, p)
    {
      if p.noteLands {
        observedGeneration, agentReady := generation, false;
        ghost var u := Update(Kind.Ready, False, reason, message, generation, p.now);
        WroteFew(conditions, u, u, u);
        SetCondition(Kind.Ready, False, reason, message, p.now);
      }
    }

    /** Enables the remote environment once and stores its identity. */
    method EnsureEnabled(p: Plan) returns (ok: bool)
      modifies this
      ensures Now() == Ensured(old(Now()), p)
      ensures ok == EnvironmentProtocol.EnsureEnabled(old(Now()).store, p.calls).phase.ok
    {
      hide Alone, Apply;
      var c := p.calls;
      ghost var first := NextOf(Now().store, Reading(envZID), c);
      ghost var second := NextOf(first.store, first.phase, c);
      if !c.read {
        return false;
      }
      if secret.Some? {
        ok := AdoptIdentitySecret(secret.value, c);
        return;
      }
      if envZID != "" && c.blank {
        envZID := "";
      }
      ok := EnableAndRecord(p);
    }

    /** Enable, then write the Secret, then the status; whoever loses the race for the Secret undoes the Enable. */
    method EnableAndRecord(p: Plan) returns (ok: bool)
      requires secret.None?
      modifies this
      ensures var s, n := old(Now()), Alone(old(Now()).store, Enabling, p.calls);
              && ok == n.phase.ok && ok == (p.calls.enable.Some? && p.calls.create && p.calls.write)
              && Now() == State(if ok then Stamped(s.resource, p) else s.resource, n.store)
    {
      hide Alone, Apply;
      var c := p.calls;
      ghost var first := NextOf(Now().store, Enabling, c);
      ghost var second := NextOf(first.store, first.phase, c);
      ghost var third := NextOf(second.store, second.phase, c);
      if c.enable.None? {
        return false;
      }
      var zid := c.enable.value;
      enabled := enabled + {zid};
      if !c.create {
        if c.disable {
          enabled := enabled - {zid};
        }
        return false;
      }
      secret := Some(Secret(true, zid));
      if c.write {
        envZID, uniqueID := zid, p.uniqueID;
        SetCondition(Kind.Enabled, True, Reason.Enabled, "", p.now);
      }
      ok := c.write;
    }

    /** Trusts a complete Secret of our own; any other is deleted so that the next reconcile can enable. */
    method AdoptIdentitySecret(existing: Secret, c: Calls) returns (ok: bool)
      requires secret == Some(existing)
      modifies this
      ensures var phase := Judge(Some(existing), old(envZID));
              var n := Alone(old(Now()).store, phase, c);
              Now() == old(Now()).(store := n.store) && ok == n.phase.ok
    {
      hide Alone;
      ghost var last := NextOf(Now().store, Judge(Some(existing), envZID), c);
      if !existing.owned || existing.zid == "" {
        if c.discard {
          secret := None;
        }
        return false;
      }
      if envZID == "" {
        if c.write {
          envZID := existing.zid;
        }
        return c.write;
      }
      ok := envZID == existing.zid;
    }

    method Report(p: Plan) returns (verdict: Verdict)
      modifies this
      ensures End(Now(), verdict) == Reported(old(Now()), p)
    {
      if !p.statusLands {
        return Errored;
      }
      observedGeneration, agentService, agentReady := generation, p.agentService, p.agentUp && p.agentAnswers;
      ghost var us := AgentUpdates(Now().resource, p);
      WroteFew(conditions, us[0], us[1], us[|us| - 1]);
      if !p.agentUp {
        SetCondition(Kind.AgentReady, False, Reason.Waiting, "", p.now);
        SetCondition(Kind.Enabled, True, Reason.Enabled, "", p.now);
        SetCondition(Kind.Ready, False, Reason.WaitingForAgent, "", p.now);
      } else if !p.agentAnswers {
        SetCondition(Kind.AgentReady, False, Reason.ConsoleUnreachable, p.errText, p.now);
        SetCondition(Kind.Ready, False, Reason.ConsoleUnreachable, p.errText, p.now);
      } else {
        SetCondition(Kind.AgentReady, True, Reason.Ready, "", p.now);
        SetCondition(Kind.Enabled, True, Reason.Enabled, "", p.now);
        SetCondition(Kind.Ready, True, Reason.Ready, "", p.now);
      }
      verdict := Requeued;
    }

    method Reconcile(p: Plan) returns (verdict: Verdict)
      modifies this
      ensures End(Now(), verdict) == Reconciled(old(Now()), p)
    {
      if !finalizer {
        if p.finalizerLands {
          finalizer := true;
          return Settled;
        }
        return Errored;
      }
      if !p.tokenRead {
        SetNotReady(Reason.SecretError, p.errText, p);
        return Errored;
      }
      if !p.imageAllowed {
        SetNotReady(Reason.ImageNotAllowed, p.errText, p);
        return Requeued;
      }
      var ok := EnsureEnabled(p);
      if !ok {
        if !p.endpointAllowed {
          SetNotReady(Reason.EndpointNotAllowed, p.errText, p);
          return Requeued;
        }
        SetNotReady(Reason.EnableError, p.errText, p);
        return Errored;
      }
      if p.broken.Some? {
        SetNotReady(p.broken.value, p.errText, p);
        return Errored;
      }
      verdict := Report(p);
    }

    method ReconcileDelete(name: string, shares: seq<Dependent>, retain: bool, p: Plan) returns (verdict: Verdict)
      modifies this
      ensures End(Now(), verdict) == Deleted(old(Now()), name, shares, retain, p)
    {
      if !finalizer {
        return Settled;
      }
      if !p.sharesListed {
        return Errored;
      }
      for i := 0 to |shares|
        invariant Now() == old(Now())
        invariant forall k :: 0 <= k < i ==> !Blocks(shares[k], name)
      {
        if shares[i].environment != name || shares[i].deleting {
          continue;
        }
        if p.noteLands {
          SetCondition(Kind.Ready, False, Reason.SharesExist, p.errText, p.now);
        }
        return Requeued;
      }
      if !retain && envZID != "" {
        if !p.tokenRead || !p.disabled {
          return Errored;
        }
        enabled := enabled - {envZID};
      }
      if p.secretDropped {
        secret := None;
      }
      if !p.finalizerLands {
        return Errored;
      }
      finalizer := false;
      verdict := Settled;
    }
  }
}
