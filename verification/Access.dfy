/** Private accesses and the loop that heals them (controller/access_controller.go). */
module Access {
  import opened Options
  import opened Conditions
  import opened Strings

  datatype Id = Id(namespace: string, name: string)

  /** A running access as the agent reports it. */
  datatype AccessDetail = AccessDetail(frontendToken: string, shareToken: string, bindAddress: string, status: string)

  datatype AccessSpec = AccessSpec(shareToken: string, bindAddress: string)

  datatype ZrokAccess = ZrokAccess(
    id: Id,
    generation: int,
    deleting: bool,
    finalizer: bool,
    spec: AccessSpec,
    observedGeneration: int,
    accessToken: string,
    frontendEndpoint: string,
    conditions: seq<Condition>)

  datatype EnvRead = EnvMissing | EnvUnreadable | EnvWaiting | EnvReady

  /** How every read and call of one reconcile turns out. `newToken` and `newBind` are what the agent makes up. */
  datatype Plan = Plan(
    now: int,
    errText: string,
    finalizerLands: bool,
    env: EnvRead,
    noteLands: bool,
    statusAnswers: bool,
    released: bool,
    clearLands: bool,
    created: bool,
    newToken: string,
    newBind: string,
    statusAnswersAgain: bool,
    readyLands: bool)

  datatype Verdict = Settled | Requeued | Errored

  /** `owner` remembers for whom the agent started an access. */
  datatype State = State(cr: ZrokAccess, agent: seq<AccessDetail>, owner: map<string, Id>)

  datatype End = End(s: State, verdict: Verdict)

  const DEFAULT_BIND := "0.0.0.0:0"
  const ANY_PORT := ":0"

  predicate IsAgentAccessActive(a: AccessDetail) {
    a.status == "" || a.status == "active"
  }

  function WantedBind(spec: AccessSpec): string {
    if spec.bindAddress == "" then DEFAULT_BIND else spec.bindAddress
  }

  predicate AccessSpecDrifted(spec: AccessSpec, live: AccessDetail) {
    || (live.shareToken != "" && live.shareToken != spec.shareToken)
    || (!HasSuffix(WantedBind(spec), ANY_PORT) && live.bindAddress != "" && live.bindAddress != WantedBind(spec))
  }

  // ----- lookups -----

  /** The first active access under a token. */
  function ActiveByToken(accesses: seq<AccessDetail>, token: string): (r: Option<AccessDetail>)
    ensures r.Some? ==> r.value in accesses && r.value.frontendToken == token && IsAgentAccessActive(r.value)
    ensures r.None? ==> forall a :: a in accesses && a.frontendToken == token ==> !IsAgentAccessActive(a)
  {
    if accesses == [] then None
    else if accesses[0].frontendToken == token && IsAgentAccessActive(accesses[0]) then Some(accesses[0])
    else ActiveByToken(accesses[1..], token)
  }

  /** The address of the first access under a token, active or not. */
  function BindOf(accesses: seq<AccessDetail>, token: string): string {
    if accesses == [] then ""
    else if accesses[0].frontendToken == token then accesses[0].bindAddress
    else BindOf(accesses[1..], token)
  }

  function Without(accesses: seq<AccessDetail>, token: string): (r: seq<AccessDetail>)
    ensures forall a :: a in r <==> a in accesses && a.frontendToken != token
  {
    if accesses == [] then []
    else if accesses[0].frontendToken == token then Without(accesses[1..], token)
    else [accesses[0]] + Without(accesses[1..], token)
  }

  // ----- reconcile -----

  function WithReady(c: ZrokAccess, status: ConditionStatus, reason: Reason, message: string,
                     now: int): seq<Condition> {
    Apply(c.conditions, Update(Kind.Ready, status, reason, message, c.generation, now))
  }

  function NotReady(s: State, reason: Reason, message: string, p: Plan): State {
    if p.noteLands
    then s.(cr := s.cr.(observedGeneration := s.cr.generation,
                          conditions := WithReady(s.cr, False, reason, message, p.now)))
    else s
  }

  function Marked(c: ZrokAccess, token: string, bind: string, now: int): ZrokAccess {
    c.(accessToken := token, frontendEndpoint := if bind == "" then token else bind, observedGeneration := c.generation,
       conditions := WithReady(c, True, Reason.Ready, "", now))
  }

  function MarkedReady(s: State, token: string, bind: string, p: Plan): End {
    if p.readyLands then End(s.(cr := Marked(s.cr, token, bind, p.now)), Requeued) else End(s, Errored)
  }

  function Cleared(c: ZrokAccess, now: int): ZrokAccess {
    c.(accessToken := "", frontendEndpoint := "", conditions := WithReady(c, False, Reason.Healing, "", now))
  }

  /** Release is best effort. */
  function Released(s: State, lands: bool): State {
    if lands then s.(agent := Without(s.agent, s.cr.accessToken)) else s
  }

  function Created(s: State, p: Plan): State {
    s.(agent := s.agent + [AccessDetail(p.newToken, s.cr.spec.shareToken, p.newBind, "active")],
         owner := s.owner[p.newToken := s.cr.id])
  }

  function CreateAccess(s: State, p: Plan): End {
    if !p.created then End(NotReady(s, Reason.AccessError, p.errText, p), Errored)
    else
      var s1 := Created(s, p);
      MarkedReady(s1, p.newToken, if p.statusAnswersAgain then BindOf(s1.agent, p.newToken) else "", p)
  }

  /** The agent runs the access in status and it is what the spec asks for. */
  predicate Serves(s: State) {
    var live := ActiveByToken(s.agent, s.cr.accessToken);
    live.Some? && !AccessSpecDrifted(s.cr.spec, live.value)
  }

  function Healed(s: State, p: Plan): End {
    if s.cr.accessToken == "" then CreateAccess(s, p)
    else if !p.statusAnswers then End(s, Requeued)
    else if Serves(s) then
      MarkedReady(s, s.cr.accessToken, ActiveByToken(s.agent, s.cr.accessToken).value.bindAddress, p)
    else
      var s1 := Released(s, p.released);
      if !p.clearLands then End(s1, Errored) else CreateAccess(s1.(cr := Cleared(s1.cr, p.now)), p)
  }

  function Reconciled(s: State, p: Plan): End {
    if !s.cr.finalizer then
      if p.finalizerLands then End(s.(cr := s.cr.(finalizer := true)), Settled) else End(s, Errored)
    else
      match p.env
      case EnvMissing => End(NotReady(s, Reason.EnvironmentMissing, p.errText, p), Requeued)
      case EnvUnreadable => End(s, Errored)
      case EnvWaiting => End(NotReady(s, Reason.WaitingForEnvironment, "", p), Requeued)
      case EnvReady => Healed(s, p)
  }

  /** The finalizer goes whatever becomes of the access. */
  function Deleted(s: State, p: Plan): End {
    if !s.cr.finalizer then End(s, Settled)
    else
      var s1 := if (p.env.EnvWaiting? || p.env.EnvReady?) && s.cr.accessToken != "" then Released(s, p.released) else s;
      if p.finalizerLands then End(s1.(cr := s1.cr.(finalizer := false)), Settled) else End(s1, Errored)
  }

  // ----- one step heals -----

  /** Nothing fails, and the agent starts a fresh access on the address asked for, or on any port if that is asked
      for. */
  ghost predicate FaultFree(s: State, p: Plan) {
    && p.env.EnvReady? && p.statusAnswers && p.released && p.clearLands && p.created && p.statusAnswersAgain
    && p.readyLands
    && p.newToken != "" && (forall a :: a in s.agent ==> a.frontendToken != p.newToken)
    && (!HasSuffix(WantedBind(s.cr.spec), ANY_PORT) ==> p.newBind == WantedBind(s.cr.spec))
  }

  /** One access per token. */
  ghost predicate TokensIdentify(agent: seq<AccessDetail>) {
    forall a, b :: a in agent && b in agent && a.frontendToken == b.frontendToken ==> a == b
  }

  /** Marking the access ready would write what is there already. */
  ghost predicate ShowsReady(s: State) {
    && s.cr.accessToken != "" && Serves(s)
    && forall now ::
         Marked(s.cr, s.cr.accessToken, ActiveByToken(s.agent, s.cr.accessToken).value.bindAddress, now) == s.cr
  }

  lemma {:induction false} BindIsListed(accesses: seq<AccessDetail>, a: AccessDetail)
    requires TokensIdentify(accesses) && a in accesses
    ensures BindOf(accesses, a.frontendToken) == a.bindAddress
  {
    if accesses[0].frontendToken != a.frontendToken {
      assert forall b :: b in accesses[1..] ==> b in accesses;
      BindIsListed(accesses[1..], a);
    } else {
      assert accesses[0] in accesses;
    }
  }

  lemma MarkedStays(c: ZrokAccess, token: string, bind: string, now: int, later: int)
    ensures Marked(Marked(c, token, bind, now), token, bind, later) == Marked(c, token, bind, now)
  {
    hide Apply;
    var u := Update(Kind.Ready, True, Reason.Ready, "", c.generation, now);
    ApplyLookup(c.conditions, u, Kind.Ready);
    ApplyNoOp(Apply(c.conditions, u), u.(now := later));
  }

  lemma MarkedSame(c: ZrokAccess, token: string, bind: string, now: int)
    ensures var d := Marked(c, token, bind, now);
            d.accessToken == token && d.spec == c.spec && d.finalizer == c.finalizer
  {}

  lemma CreateHeals(s: State, p: Plan)
    requires FaultFree(s, p) && TokensIdentify(s.agent)
    ensures ShowsReady(CreateAccess(s, p).s) && TokensIdentify(CreateAccess(s, p).s.agent)
  {
    hide Apply, HasSuffix;
    var s1 := Created(s, p);
    var a := AccessDetail(p.newToken, s.cr.spec.shareToken, p.newBind, "active");
    assert a in s1.agent && IsAgentAccessActive(a) && TokensIdentify(s1.agent);
    assert ActiveByToken(s1.agent, p.newToken) == Some(a);
    BindIsListed(s1.agent, a);
    MarkedAny(s1, a, p);
  }

  lemma MarkedAny(s: State, a: AccessDetail, p: Plan)
    requires p.readyLands && a.frontendToken != "" && ActiveByToken(s.agent, a.frontendToken) == Some(a)
    requires !AccessSpecDrifted(s.cr.spec, a)
    ensures ShowsReady(MarkedReady(s, a.frontendToken, a.bindAddress, p).s)
  {
    hide Apply, ActiveByToken, AccessSpecDrifted, Marked;
    MarkedSame(s.cr, a.frontendToken, a.bindAddress, p.now);
    forall later
      ensures Marked(Marked(s.cr, a.frontendToken, a.bindAddress, p.now), a.frontendToken, a.bindAddress, later)
           == Marked(s.cr, a.frontendToken, a.bindAddress, p.now)
    {
      MarkedStays(s.cr, a.frontendToken, a.bindAddress, p.now, later);
    }
  }

  /** Whatever state it is in, one fault-free reconcile leaves the access active, not drifted and reported as it is. */
  lemma OneStepHeals(s: State, p: Plan)
    requires s.cr.finalizer && FaultFree(s, p) && TokensIdentify(s.agent)
    ensures var t := Reconciled(s, p).s;
            ShowsReady(t) && t.cr.finalizer && t.cr.spec == s.cr.spec && IsTrue(t.cr.conditions, Kind.Ready)
  {
    hide Apply, AccessSpecDrifted, HasSuffix, CreateAccess, MarkedReady, ShowsReady, IsTrue;
    if s.cr.accessToken == "" {
      CreateHeals(s, p);
      CreateReady(s, p);
    } else if Serves(s) {
      var live := ActiveByToken(s.agent, s.cr.accessToken).value;
      MarkedAny(s, live, p);
      MarkReady(s, s.cr.accessToken, live.bindAddress, p);
    } else {
      var s1 := Released(s, true).(cr := Cleared(s.cr, p.now));
      CreateHeals(s1, p);
      CreateReady(s1, p);
    }
  }

  lemma MarkReady(s: State, token: string, bind: string, p: Plan)
    requires p.readyLands
    ensures var t := MarkedReady(s, token, bind, p).s.cr;
            IsTrue(t.conditions, Kind.Ready) && t.finalizer == s.cr.finalizer && t.spec == s.cr.spec
  {
    hide Apply;
    ApplyLookup(s.cr.conditions, Update(Kind.Ready, True, Reason.Ready, "", s.cr.generation, p.now), Kind.Ready);
  }

  lemma CreateReady(s: State, p: Plan)
    requires p.readyLands && p.created
    ensures var t := CreateAccess(s, p).s.cr;
            IsTrue(t.conditions, Kind.Ready) && t.finalizer == s.cr.finalizer && t.spec == s.cr.spec
  {
    hide MarkedReady, IsTrue;
    var s1 := Created(s, p);
    MarkReady(s1, p.newToken, if p.statusAnswersAgain then BindOf(s1.agent, p.newToken) else "", p);
  }

  /** Before the finalizer is in place and the environment is ready the agent is left alone, and status says why. Only a
      reconcile that just added the finalizer does not ask to come back: its own write brings it back. */
  lemma WaitsForEnvironment(s: State, p: Plan)
    ensures Reconciled(s, p).verdict == Settled <==> !s.cr.finalizer && p.finalizerLands
    ensures !s.cr.finalizer || p.env != EnvReady ==>
              var t := Reconciled(s, p).s;
              && t.agent == s.agent && t.cr.accessToken == s.cr.accessToken
              && t.cr.frontendEndpoint == s.cr.frontendEndpoint
              && (s.cr.finalizer && p.noteLands && p.env in {EnvMissing, EnvWaiting} ==>
                    && t.cr.observedGeneration == s.cr.generation && !IsTrue(t.cr.conditions, Kind.Ready)
                    && ReasonOf(t.cr.conditions, Kind.Ready)
                       == if p.env == EnvMissing then Reason.EnvironmentMissing else Reason.WaitingForEnvironment)
  {
    hide Apply, AccessSpecDrifted, ActiveByToken, Lookup;
    var u := Update(Kind.Ready, False, Reason.EnvironmentMissing, p.errText, s.cr.generation, p.now);
    var v := Update(Kind.Ready, False, Reason.WaitingForEnvironment, "", s.cr.generation, p.now);
    ApplyLookup(s.cr.conditions, u, Kind.Ready);
    ApplyLookup(s.cr.conditions, v, Kind.Ready);
  }

  /** What the user asked for, read off the spec alone: an access the agent runs, to the right share, on the address
      asked for; a share or an address that the agent does not report is taken on trust, and ":0" means any port. */
  predicate AsAskedFor(spec: AccessSpec, a: AccessDetail) {
    var want := if spec.bindAddress == "" then "0.0.0.0:0" else spec.bindAddress;
    && a.status in ["", "active"] && a.shareToken in ["", spec.shareToken]
    && (a.bindAddress in ["", want] || (|want| >= 2 && want[|want| - 2..] == ":0"))
  }

  lemma ServesAsAsked(s: State)
    requires TokensIdentify(s.agent)
    ensures Serves(s) <==> exists a :: a in s.agent && a.frontendToken == s.cr.accessToken && AsAskedFor(s.cr.spec, a)
  {
    var live := ActiveByToken(s.agent, s.cr.accessToken);
    if live.Some? {
      assert live.value in s.agent;
      assert live.value.status in ["", "active"];
    }
  }

  /** A running access is kept, under its token and with the agent untouched, exactly when it is what was asked for;
      otherwise the reconcile takes it down, or at least forgets it, before it starts another. */
  lemma KeptExactly(s: State, p: Plan)
    requires s.cr.finalizer && p.env.EnvReady? && p.statusAnswers && p.clearLands && TokensIdentify(s.agent)
    requires s.cr.accessToken != "" && p.newToken != s.cr.accessToken
    ensures var t := Reconciled(s, p).s;
            t.agent == s.agent && t.cr.accessToken == s.cr.accessToken
            <==> exists a :: a in s.agent && a.frontendToken == s.cr.accessToken && AsAskedFor(s.cr.spec, a)
  {
    hide Apply, AccessSpecDrifted, ActiveByToken, AsAskedFor;
    ServesAsAsked(s);
  }

  /** After one fault-free reconcile the access in status is what was asked for, and status gives its address. */
  lemma OneStepServes(s: State, p: Plan)
    requires s.cr.finalizer && FaultFree(s, p) && TokensIdentify(s.agent)
    ensures var t := Reconciled(s, p).s;
            exists a :: a in t.agent && a.frontendToken == t.cr.accessToken && AsAskedFor(s.cr.spec, a)
                        && t.cr.frontendEndpoint == if a.bindAddress == "" then a.frontendToken else a.bindAddress
  {
    hide Apply, AccessSpecDrifted, HasSuffix, Reconciled, Marked, AsAskedFor;
    OneStepHeals(s, p);
    var t := Reconciled(s, p).s;
    assert TokensIdentify(t.agent) by { StaysIdentified(s, p); }
    ServesAsAsked(t);
    var live := ActiveByToken(t.agent, t.cr.accessToken).value;
    EndpointShown(t.cr, live.bindAddress);
  }

  lemma EndpointShown(c: ZrokAccess, bind: string)
    requires forall now :: Marked(c, c.accessToken, bind, now) == c
    ensures c.frontendEndpoint == if bind == "" then c.accessToken else bind
  {
    hide Apply;
    assert Marked(c, c.accessToken, bind, 0) == c;
  }

  lemma StaysIdentified(s: State, p: Plan)
    requires s.cr.finalizer && FaultFree(s, p) && TokensIdentify(s.agent)
    ensures TokensIdentify(Reconciled(s, p).s.agent)
  {
    hide Apply, AccessSpecDrifted, HasSuffix, ActiveByToken;
  }

  /** And a further reconcile changes nothing, transition time included: a bind to any port does not drift. */
  lemma HealedStays(s: State, p: Plan)
    requires ShowsReady(s) && s.cr.finalizer && p.env.EnvReady? && p.statusAnswers && p.readyLands
    ensures Reconciled(s, p) == End(s, Requeued)
  {
    hide Apply, AccessSpecDrifted, Marked;
    assert Marked(s.cr, s.cr.accessToken, ActiveByToken(s.agent, s.cr.accessToken).value.bindAddress, p.now) == s.cr;
  }

  // ----- all accesses of an environment -----

  datatype World = World(crs: map<Id, ZrokAccess>, agent: seq<AccessDetail>, owner: map<string, Id>)

  datatype Action =
    | Run(id: Id, plan: Plan)
    | Submit(id: Id, spec: AccessSpec)
    | Edit(id: Id, spec: AccessSpec)
    | Remove(id: Id)
    | Outside(agent: seq<AccessDetail>)     // the agent restarts, or serves accesses of others

  function Put(crs: map<Id, ZrokAccess>, id: Id, c: ZrokAccess): map<Id, ZrokAccess> {
    if c.deleting && !c.finalizer then crs - {id} else crs[id := c]
  }

  function RunOne(w: World, id: Id, p: Plan): State
    requires id in w.crs
  {
    var s := State(w.crs[id], w.agent, w.owner);
    if w.crs[id].deleting then Deleted(s, p).s else Reconciled(s, p).s
  }

  function Step(w: World, a: Action): World {
    match a
    case Run(id, p) =>
      if id !in w.crs then w
      else
        var end := RunOne(w, id, p);
        World(Put(w.crs, id, end.cr), end.agent, end.owner)
    case Submit(id, spec) =>
      if id in w.crs then w else w.(crs := w.crs[id := ZrokAccess(id, 1, false, false, spec, 0, "", "", [])])
    case Edit(id, spec) =>
      if id !in w.crs then w
      else w.(crs := w.crs[id := w.crs[id].(spec := spec, generation := w.crs[id].generation + 1)])
    case Remove(id) => if id !in w.crs then w else w.(crs := Put(w.crs, id, w.crs[id].(deleting := true)))
    case Outside(agent) => w.(agent := agent)
  }

  function After(w: World, actions: seq<Action>): World {
    if actions == [] then w else Step(After(w, actions[..|actions| - 1]), actions[|actions| - 1])
  }

  /** Tokens are fresh, the environment stays, the Ready patch lands and releases succeed. Reads, creation and every
      other write may fail. What the agent serves besides carries no token of ours. */
  ghost predicate Legit(w: World, a: Action) {
    match a
    case Run(id, p) =>
      && p.readyLands && p.released && p.newToken != "" && p.newToken !in w.owner
      && (forall d :: d in w.agent ==> d.frontendToken != p.newToken)
      && (id in w.crs && w.crs[id].deleting ==> p.env.EnvWaiting? || p.env.EnvReady?)
    case Outside(agent) =>
      TokensIdentify(agent) && forall d :: d in agent && d !in w.agent ==> d.frontendToken !in w.owner
    case _ => true
  }

  ghost predicate LegitRun(w: World, actions: seq<Action>) {
    actions == []
    || (LegitRun(w, actions[..|actions| - 1]) && Legit(After(w, actions[..|actions| - 1]), actions[|actions| - 1]))
  }

  /** What the agent serves for `c` is what its status names, and that is its own. */
  ghost predicate Tracked(c: ZrokAccess, agent: seq<AccessDetail>, owner: map<string, Id>) {
    && (forall d :: d in agent && d.frontendToken in owner && owner[d.frontendToken] == c.id ==>
          d.frontendToken == c.accessToken)
    && (c.accessToken != "" ==> c.accessToken in owner && owner[c.accessToken] == c.id)
    && (!c.finalizer ==> c.accessToken == "" || c.deleting)
  }

  ghost predicate AllTracked(w: World) {
    && TokensIdentify(w.agent) && "" !in w.owner
    && (forall d :: d in w.agent && d.frontendToken in w.owner ==> w.owner[d.frontendToken] in w.crs)
    && (forall id :: id in w.crs ==>
          w.crs[id].id == id && Tracked(w.crs[id], w.agent, w.owner) && (w.crs[id].deleting ==> w.crs[id].finalizer))
  }

  /** What one reconcile may do to the agent and to ownership. */
  ghost predicate Touches(s: State, t: State, newToken: string) {
    && (t.owner == s.owner || t.owner == s.owner[newToken := s.cr.id])
    && (forall d :: d in t.agent ==> d in s.agent || (d.frontendToken == newToken && newToken in t.owner))
    && TokensIdentify(t.agent) && "" !in t.owner && t.cr.id == s.cr.id && t.cr.deleting == s.cr.deleting
  }

  ghost predicate Fits(s: State, p: Plan) {
    && p.readyLands && p.released && p.newToken != "" && p.newToken !in s.owner
    && (forall d :: d in s.agent ==> d.frontendToken != p.newToken)
    && TokensIdentify(s.agent) && "" !in s.owner
  }

  lemma CreateTracks(s: State, p: Plan)
    requires Fits(s, p) && Tracked(s.cr, s.agent, s.owner) && s.cr.accessToken == "" && s.cr.finalizer
    ensures var t := CreateAccess(s, p).s; Tracked(t.cr, t.agent, t.owner) && Touches(s, t, p.newToken)
  {
    hide Apply, BindOf;
  }

  lemma HealTracks(s: State, p: Plan)
    requires Fits(s, p) && Tracked(s.cr, s.agent, s.owner) && s.cr.finalizer
    ensures var t := Healed(s, p).s; Tracked(t.cr, t.agent, t.owner) && Touches(s, t, p.newToken) && t.cr.finalizer
  {
    hide Apply, CreateAccess, AccessSpecDrifted;
    if s.cr.accessToken == "" {
      CreateTracks(s, p);
      CreateKeepsFinalizer(s, p);
    } else if p.statusAnswers && !Serves(s) && p.clearLands {
      var s1 := Released(s, p.released).(cr := Cleared(s.cr, p.now));
      CreateTracks(s1, p);
      CreateKeepsFinalizer(s1, p);
    }
  }

  lemma CreateKeepsFinalizer(s: State, p: Plan)
    ensures CreateAccess(s, p).s.cr.finalizer == s.cr.finalizer
  {
    hide Apply;
  }

  lemma ReconcileTracks(s: State, p: Plan)
    requires Fits(s, p) && Tracked(s.cr, s.agent, s.owner) && !s.cr.deleting
    ensures var t := Reconciled(s, p).s; Tracked(t.cr, t.agent, t.owner) && Touches(s, t, p.newToken)
  {
    hide Apply, Healed;
    if s.cr.finalizer {
      HealTracks(s, p);
    }
  }

  lemma DeleteTracks(s: State, p: Plan)
    requires Fits(s, p) && Tracked(s.cr, s.agent, s.owner) && s.cr.deleting && (p.env.EnvWaiting? || p.env.EnvReady?)
    ensures var t := Deleted(s, p).s;
            && Tracked(t.cr, t.agent, t.owner) && Touches(s, t, p.newToken) && t.owner == s.owner
            && (s.cr.finalizer && !t.cr.finalizer ==>
                  forall d :: d in t.agent && d.frontendToken in t.owner ==> t.owner[d.frontendToken] != s.cr.id)
  {}

  /** A step of one resource does not disturb what is tracked for another. */
  lemma OtherStaysTracked(s: State, t: State, newToken: string, other: ZrokAccess)
    requires Touches(s, t, newToken) && newToken !in s.owner && other.id != s.cr.id
    requires Tracked(other, s.agent, s.owner) && forall d :: d in s.agent ==> d.frontendToken != newToken
    ensures Tracked(other, t.agent, t.owner)
  {}

  lemma RunTracks(w: World, id: Id, p: Plan)
    requires AllTracked(w) && Legit(w, Run(id, p)) && id in w.crs
    ensures AllTracked(Step(w, Run(id, p)))
  {
    hide Tracked, Reconciled, Deleted;
    var s := State(w.crs[id], w.agent, w.owner);
    var t := RunOne(w, id, p);
    if s.cr.deleting {
      DeleteTracks(s, p);
    } else {
      ReconcileTracks(s, p);
    }
    forall o | o in w.crs && o != id
      ensures Tracked(w.crs[o], t.agent, t.owner)
    {
      OtherStaysTracked(s, t, p.newToken, w.crs[o]);
    }
  }

  lemma StepTracks(w: World, a: Action)
    requires AllTracked(w) && Legit(w, a)
    ensures AllTracked(Step(w, a))
  {
    hide RunOne;
    match a
    case Run(id, p) =>
      if id in w.crs {
        RunTracks(w, id, p);
      }
    case Outside(_) =>
    case Submit(_, _) =>
    case Edit(_, _) =>
    case Remove(_) =>
  }

  predicate ServedForOne(w: World, d: AccessDetail, e: AccessDetail) {
    && d.frontendToken in w.owner && e.frontendToken in w.owner
    && w.owner[d.frontendToken] == w.owner[e.frontendToken]
  }

  /** In every run each access the agent serves for a resource is the one in that resource's status; so there is at most
      one, and none for a resource that is gone. */
  lemma {:induction false} AtMostOneAccess(w: World, actions: seq<Action>)
    requires w.crs == map[] && w.owner == map[] && TokensIdentify(w.agent) && LegitRun(w, actions)
    ensures AllTracked(After(w, actions))
    ensures var t := After(w, actions);
            && (forall d :: d in t.agent && d.frontendToken in t.owner ==>
                  t.owner[d.frontendToken] in t.crs && t.crs[t.owner[d.frontendToken]].accessToken == d.frontendToken)
            && (forall d, e :: d in t.agent && e in t.agent && ServedForOne(t, d, e) ==> d == e)
  {
    hide Step, Legit;
    if actions != [] {
      AtMostOneAccess(w, actions[..|actions| - 1]);
      StepTracks(After(w, actions[..|actions| - 1]), actions[|actions| - 1]);
    }
  }

  // ----- what is left behind -----

  predicate Running(agent: seq<AccessDetail>, token: string) {
    exists d :: d in agent && d.frontendToken == token
  }

  /** The agent serves an access of the resource that its status does not name. */
  ghost predicate Untracked(s: State) {
    exists d :: d in s.agent && OwnedHere(s, d.frontendToken) && d.frontendToken != s.cr.accessToken
  }

  predicate OwnedHere(s: State, token: string) {
    token in s.owner && s.owner[token] == s.cr.id
  }

  /** The reconcile finds that the access in status is not served as it should be. */
  predicate Rebuilds(s: State, p: Plan) {
    s.cr.finalizer && p.env.EnvReady? && s.cr.accessToken != "" && p.statusAnswers && !Serves(s)
  }

  predicate Starts(s: State, p: Plan) {
    s.cr.finalizer && p.env.EnvReady? && p.created && (s.cr.accessToken == "" || (Rebuilds(s, p) && p.clearLands))
  }

  predicate FreshToken(s: State, p: Plan) {
    p.newToken != "" && p.newToken !in s.owner && "" !in s.owner && !Running(s.agent, p.newToken)
  }

  /** Ready comes with a token, and without one status gives no address. */
  predicate Told(c: ZrokAccess) {
    && (IsTrue(c.conditions, Kind.Ready) ==> c.accessToken != "")
    && (c.accessToken == "" ==> c.frontendEndpoint == "")
  }

  lemma NotReadyTold(s: State, reason: Reason, message: string, p: Plan)
    requires Told(s.cr)
    ensures Told(NotReady(s, reason, message, p).cr)
  {
    hide Apply, Lookup;
    ApplyLookup(s.cr.conditions, Update(Kind.Ready, False, reason, message, s.cr.generation, p.now), Kind.Ready);
  }

  lemma CreateTold(s: State, p: Plan)
    requires Told(s.cr) && p.newToken != ""
    ensures Told(CreateAccess(s, p).s.cr)
  {
    hide NotReady, BindOf, WithReady, IsTrue;
    NotReadyTold(s, Reason.AccessError, p.errText, p);
  }

  lemma ClearedTold(c: ZrokAccess, now: int)
    ensures Told(Cleared(c, now))
  {
    hide Apply, Lookup;
    ApplyLookup(c.conditions, Update(Kind.Ready, False, Reason.Healing, "", c.generation, now), Kind.Ready);
  }

  lemma OneTold(s: State, p: Plan)
    requires Told(s.cr) && p.newToken != ""
    ensures Told(Reconciled(s, p).s.cr) && Told(Deleted(s, p).s.cr)
  {
    hide NotReady, CreateAccess, Serves, Cleared, WithReady, IsTrue, ActiveByToken;
    NotReadyTold(s, Reason.EnvironmentMissing, p.errText, p);
    NotReadyTold(s, Reason.WaitingForEnvironment, "", p);
    ClearedTold(s.cr, p.now);
    CreateTold(s, p);
    CreateTold(Released(s, p.released).(cr := Cleared(s.cr, p.now)), p);
  }

  /** In every run of any resources, with any failures, edits and agent restarts: a status without a token has no
      address and is not Ready. */
  lemma {:induction false} NoTokenNoAddress(w: World, actions: seq<Action>)
    requires w.crs == map[] && forall i :: 0 <= i < |actions| ==> actions[i].Run? ==> actions[i].plan.newToken != ""
    ensures forall id :: id in After(w, actions).crs ==> Told(After(w, actions).crs[id])
  {
    hide Reconciled, Deleted, IsTrue;
    if actions != [] {
      var earlier, a := actions[..|actions| - 1], actions[|actions| - 1];
      NoTokenNoAddress(w, earlier);
      var before := After(w, earlier);
      if a.Run? && a.id in before.crs {
        OneTold(State(before.crs[a.id], before.agent, before.owner), a.plan);
      }
      if a.Submit? {
        NewTold(a.id, a.spec);
      }
    }
  }

  lemma NewTold(id: Id, spec: AccessSpec)
    ensures Told(ZrokAccess(id, 1, false, false, spec, 0, "", "", []))
  {}

  /** A reconcile leaves an access behind exactly when it starts one and the Ready patch fails, or when it forgets
      one that is still running because the release failed. */
  lemma UntrackedExactly(s: State, p: Plan)
    requires Tracked(s.cr, s.agent, s.owner) && FreshToken(s, p)
    ensures Untracked(Reconciled(s, p).s)
       <==> (Starts(s, p) && !p.readyLands)
            || (Rebuilds(s, p) && p.clearLands && !p.released && Running(s.agent, s.cr.accessToken))
  {
    hide Apply, Serves, CreateAccess;
    if s.cr.finalizer && p.env.EnvReady? && (s.cr.accessToken == "" || (Rebuilds(s, p) && p.clearLands)) {
      var s1 := if s.cr.accessToken == "" then s else Released(s, p.released).(cr := Cleared(s.cr, p.now));
      assert Reconciled(s, p) == CreateAccess(s1, p);
      ClearedKeepsId(s.cr, p.now);
      CreateUntracked(s1, p);
      OwnedIsRunning(s, s1, p);
    } else {
      var t := Reconciled(s, p).s;
      assert (forall d :: d in t.agent ==> d in s.agent) && t.owner == s.owner;
      assert t.cr.id == s.cr.id && t.cr.accessToken == s.cr.accessToken;
    }
  }

  /** What is still running of the resource's own once status is empty. */
  lemma OwnedIsRunning(s: State, s1: State, p: Plan)
    requires Tracked(s.cr, s.agent, s.owner) && "" !in s.owner && s1.owner == s.owner && s1.cr.id == s.cr.id
    requires s1.agent == if s.cr.accessToken == "" || !p.released then s.agent else Without(s.agent, s.cr.accessToken)
    ensures (exists d :: d in s1.agent && OwnedHere(s1, d.frontendToken))
       <==> s.cr.accessToken != "" && !p.released && Running(s.agent, s.cr.accessToken)
  {
    if s.cr.accessToken != "" && !p.released && Running(s.agent, s.cr.accessToken) {
      var d :| d in s.agent && d.frontendToken == s.cr.accessToken;
      assert OwnedHere(s1, d.frontendToken);
    }
  }

  lemma ClearedKeepsId(c: ZrokAccess, now: int)
    ensures var d := Cleared(c, now); d.id == c.id && d.accessToken == ""
  {}

  lemma CreateUntracked(s: State, p: Plan)
    requires s.cr.accessToken == "" && FreshToken(s, p)
    ensures Untracked(CreateAccess(s, p).s)
       <==> (p.created && !p.readyLands) || exists d :: d in s.agent && OwnedHere(s, d.frontendToken)
  {
    hide Apply, BindOf;
    var t := CreateAccess(s, p).s;
    if p.created {
      var a := AccessDetail(p.newToken, s.cr.spec.shareToken, p.newBind, "active");
      assert forall d :: d in t.agent <==> d in s.agent || d == a;
    }
    if exists d :: d in s.agent && OwnedHere(s, d.frontendToken) {
      var d :| d in s.agent && OwnedHere(s, d.frontendToken);
      assert d in t.agent && OwnedHere(t, d.frontendToken);
    }
  }

  /** A deletion that goes through leaves the access running exactly when the environment cannot be read or the
      release fails. */
  lemma DeletionLeavesExactly(s: State, p: Plan)
    requires Tracked(s.cr, s.agent, s.owner) && "" !in s.owner && s.cr.finalizer && p.finalizerLands
    ensures var t := Deleted(s, p).s;
            && !t.cr.finalizer
            && ((exists d :: d in t.agent && OwnedHere(t, d.frontendToken))
                <==> s.cr.accessToken != "" && Running(s.agent, s.cr.accessToken)
                     && (!p.released || p.env.EnvMissing? || p.env.EnvUnreadable?))
  {
    var t := Deleted(s, p).s;
    if s.cr.accessToken != "" && Running(s.agent, s.cr.accessToken) && t.agent == s.agent {
      var d :| d in s.agent && d.frontendToken == s.cr.accessToken;
      assert d in t.agent && OwnedHere(t, d.frontendToken);
    }
  }

  const WEB := ZrokAccess(Id("ns", "web"), 1, false, true, AccessSpec("share", ""), 0, "", "", [])
  const UNRELEASED := Plan(0, "", true, EnvReady, true, true, false, true, true, "f2", "0.0.0.0:1", true, true)

  /** An access that is started and not recorded, and one that is given up while it still runs. */
  lemma LeftBehind()
    ensures Untracked(Reconciled(State(WEB, [], map[]), UNRELEASED.(readyLands := false)).s)
    ensures var bound :=
              State(WEB.(accessToken := "f1"), [AccessDetail("f1", "other", "", "active")], map["f1" := WEB.id]);
            Untracked(Reconciled(bound, UNRELEASED).s)
  {
    hide Reconciled, Apply, HasSuffix, Untracked;
    UntrackedExactly(State(WEB, [], map[]), UNRELEASED.(readyLands := false));
    var bound := State(WEB.(accessToken := "f1"), [AccessDetail("f1", "other", "", "active")], map["f1" := WEB.id]);
    assert bound.agent[0].frontendToken == "f1" && ActiveByToken(bound.agent, "f1") == Some(bound.agent[0]);
    assert "other"[0] != "share"[0];
    UntrackedExactly(bound, UNRELEASED);
  }

  // ----- the reconciler -----

  class AccessReconciler {
    // the resource
    var id: Id
    var generation: int
    var deleting: bool
    var finalizer: bool
    var spec: AccessSpec
    var observedGeneration: int
    var accessToken: string
    var frontendEndpoint: string
    var conditions: seq<Condition>
    // the agent's access table; `owner` is bookkeeping of the model
    var agent: seq<AccessDetail>
    ghost var owner: map<string, Id>

    constructor (c: ZrokAccess, agent: seq<AccessDetail>)
      ensures Now() == State(c, agent, map[])
    {
      id, generation, deleting, finalizer, spec := c.id, c.generation, c.deleting, c.finalizer, c.spec;
      observedGeneration, accessToken := c.observedGeneration, c.accessToken;
      frontendEndpoint, conditions := c.frontendEndpoint, c.conditions;
      this.agent := agent;
      owner := map[];
    }

    ghost function Now(): State
      reads this
    {
      State(ZrokAccess(id, generation, deleting, finalizer, spec, observedGeneration, accessToken, frontendEndpoint,
                       conditions), agent, owner)
    }

    method SetReady(status: ConditionStatus, reason: Reason, message: string, now: int)
      modifies this`conditions
      ensures conditions == WithReady(old(Now()).cr, status, reason, message, now)
    {
      var list := new ConditionList(conditions);
      list.SetCondition(Update(Kind.Ready, status, reason, message, generation, now));
      conditions := list.items;
    }

    method SetNotReady(reason: Reason, message: string, p: Plan)
      modifies this
      ensures Now() == NotReady(old(Now()), reason, message, p)
    {
      if p.noteLands {
        observedGeneration := generation;
        SetReady(False, reason, message, p.now);
      }
    }

    method MarkAccessReady(token: string, bind: string, p: Plan) returns (verdict: Verdict)
      modifies this
      ensures End(Now(), verdict) == MarkedReady(old(Now()), token, bind, p)
    {
      if !p.readyLands {
        return Errored;
      }
      SetReady(True, Reason.Ready, "", p.now);
      accessToken, frontendEndpoint, observedGeneration := token, if bind == "" then token else bind, generation;
      verdict := Requeued;
    }

    /** The access in status, when the agent serves it and it has not drifted. */
    method FindServing() returns (live: Option<AccessDetail>)
      ensures live == if Serves(Now()) then ActiveByToken(agent, accessToken) else None
    {
      hide AccessSpecDrifted;
      for i := 0 to |agent|
        invariant ActiveByToken(agent[i..], accessToken) == ActiveByToken(agent, accessToken)
      {
        if agent[i].frontendToken != accessToken || !IsAgentAccessActive(agent[i]) {
          continue;
        }
        if AccessSpecDrifted(spec, agent[i]) {
          return None;
        }
        return Some(agent[i]);
      }
      live := None;
    }

    method FindBind(token: string) returns (bind: string)
      ensures bind == BindOf(agent, token)
    {
      for i := 0 to |agent|
        invariant BindOf(agent[i..], token) == BindOf(agent, token)
      {
        if agent[i].frontendToken == token {
          return agent[i].bindAddress;
        }
      }
      bind := "";
    }

    method Create(p: Plan) returns (verdict: Verdict)
      modifies this
      ensures End(Now(), verdict) == CreateAccess(old(Now()), p)
    {
      hide Apply;
      if !p.created {
        SetNotReady(Reason.AccessError, p.errText, p);
        return Errored;
      }
      agent := agent + [AccessDetail(p.newToken, spec.shareToken, p.newBind, "active")];
      owner := owner[p.newToken := id];
      var bind := "";
      if p.statusAnswersAgain {
        bind := FindBind(p.newToken);
      }
      verdict := MarkAccessReady(p.newToken, bind, p);
    }

    method Heal(p: Plan) returns (verdict: Verdict)
      modifies this
      ensures End(Now(), verdict) == Healed(old(Now()), p)
    {
      hide Apply, CreateAccess, MarkedReady, AccessSpecDrifted, ActiveByToken;
      if accessToken == "" {
        verdict := Create(p);
        return;
      }
      if !p.statusAnswers {
        return Requeued;
      }
      var live := FindServing();
      if live.Some? {
        verdict := MarkAccessReady(live.value.frontendToken, live.value.bindAddress, p);
        return;
      }
      if p.released {
        agent := Without(agent, accessToken);
      }
      if !p.clearLands {
        return Errored;
      }
      SetReady(False, Reason.Healing, "", p.now);
      accessToken, frontendEndpoint := "", "";
      verdict := Create(p);
    }

    method Reconcile(p: Plan) returns (verdict: Verdict)
      modifies this
      ensures End(Now(), verdict) == Reconciled(old(Now()), p)
    {
      hide Healed, Apply;
      if !finalizer {
        if p.finalizerLands {
          finalizer := true;
          return Settled;
        }
        return Errored;
      }
      match p.env
      case EnvMissing =>
        SetNotReady(Reason.EnvironmentMissing, p.errText, p);
        verdict := Requeued;
      case EnvUnreadable =>
        verdict := Errored;
      case EnvWaiting =>
        SetNotReady(Reason.WaitingForEnvironment, "", p);
        verdict := Requeued;
      case EnvReady =>
        verdict := Heal(p);
    }

    method ReconcileDelete(p: Plan) returns (verdict: Verdict)
      modifies this
      ensures End(Now(), verdict) == Deleted(old(Now()), p)
    {
      if !finalizer {
        return Settled;
      }
      if (p.env.EnvWaiting? || p.env.EnvReady?) && accessToken != "" && p.released {
        agent := Without(agent, accessToken);
      }
      if !p.finalizerLands {
        return Errored;
      }
      finalizer := false;
      verdict := Settled;
    }
  }
}
