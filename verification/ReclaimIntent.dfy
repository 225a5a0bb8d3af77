/** The reclaim annotation is an intent log: a name is recorded before it is deleted, kept until that is settled,
    and never replaced by another. */
module ReclaimIntent {
  import opened Options
  import Conditions
  import opened Digest
  import opened Inventory
  import opened ShareFrames
  import opened Shares
  import opened ShareSteps
  import opened ShareWorld
  import opened Zrok

  /** The name in the annotation, and whether the controller has said that it is gone or not ours to delete. */
  datatype Intent = Intent(pending: string, settled: bool)

  /** The protocol, event by event; None is a violation. `wanted` is the name the spec asks for. */
  function Advance(i: Intent, e: Event, wanted: string): Option<Intent> {
    match e
    case RecordedReclaim(name) =>
      if i.pending == "" && name != "" && name != wanted then Some(Intent(name, false)) else None
    case DeletedName(key, reply) =>
      if i.pending != "" && key.name == i.pending && key.name != wanted
      then Some(Intent(i.pending, i.settled || reply == Ok || reply == Unauthorized)) else None
    case ForgotReclaim(name) =>
      if name == i.pending && name != "" && (i.settled || name == wanted) then Some(Intent("", false)) else None
    case _ => Some(i)
  }

  function Replay(i: Option<Intent>, events: seq<Event>, wanted: string): Option<Intent>
    decreases |events|
  {
    if i.None? || events == [] then i
    else Replay(Advance(i.value, events[0], wanted), events[1..], wanted)
  }

  lemma {:induction false} ReplayConcat(i: Option<Intent>, a: seq<Event>, b: seq<Event>, wanted: string)
    ensures Replay(i, a + b, wanted) == Replay(Replay(i, a, wanted), b, wanted)
    decreases |a|
  {
    if a == [] {
      assert a + b == b;
    } else if i.Some? {
      assert (a + b)[1..] == a[1..] + b;
      ReplayConcat(Advance(i.value, a[0], wanted), a[1..], b, wanted);
    }
  }

  predicate IsQuiet(e: Event) {
    !e.RecordedReclaim? && !e.DeletedName? && !e.ForgotReclaim?
  }

  predicate AllQuiet(events: seq<Event>) {
    forall i :: 0 <= i < |events| ==> IsQuiet(events[i])
  }

  lemma {:induction false} QuietReplay(i: Intent, events: seq<Event>, wanted: string)
    requires AllQuiet(events)
    ensures Replay(Some(i), events, wanted) == Some(i)
  {
    if events != [] {
      QuietReplay(i, events[1..], wanted);
    }
  }

  function Since(s: St, t: St): seq<Event>
    requires s.net.log <= t.net.log
  {
    t.net.log[|s.net.log|..]
  }

  /** From `s` to `t` the log keeps to the protocol and explains the annotation. */
  ghost predicate Follows(s: St, t: St) {
    && s.net.log <= t.net.log
    && var end := Replay(Some(Intent(s.cr.reclaimName, false)), Since(s, t), ReservedName(s.cr.spec));
       end.Some? && end.value.pending == t.cr.reclaimName
  }

  /** As Follows, with nothing left half done. */
  ghost predicate FollowsToRest(s: St, t: St) {
    && s.net.log <= t.net.log && t.cr.spec == s.cr.spec
    && Replay(Some(Intent(s.cr.reclaimName, false)), Since(s, t), ReservedName(s.cr.spec))
       == Some(Intent(t.cr.reclaimName, false))
  }

  lemma QuietFollows(s: St, t: St)
    requires s.net.log <= t.net.log && AllQuiet(Since(s, t)) && t.cr.reclaimName == s.cr.reclaimName
    requires t.cr.spec == s.cr.spec
    ensures FollowsToRest(s, t) && Follows(s, t)
  {
    QuietReplay(Intent(s.cr.reclaimName, false), Since(s, t), ReservedName(s.cr.spec));
  }

  lemma FollowsOn(s: St, t: St, u: St)
    requires FollowsToRest(s, t) && Follows(t, u)
    ensures Follows(s, u)
    ensures FollowsToRest(t, u) ==> FollowsToRest(s, u)
  {
    assert Since(s, u) == Since(s, t) + Since(t, u);
    ReplayConcat(Some(Intent(s.cr.reclaimName, false)), Since(s, t), Since(t, u), ReservedName(s.cr.spec));
  }

  // ----- stages -----

  lemma ReplayOne(i: Intent, e: Event, wanted: string)
    ensures Replay(Some(i), [e], wanted) == Advance(i, e, wanted)
  {
    assert [e][1..] == [];
  }

  lemma ForgetFollows(s: St, lands: bool)
    requires s.cr.reclaimName != ""
    requires s.cr.reclaimName == ReservedName(s.cr.spec)
    ensures var r := ForgetReclaim(s, lands);
            Follows(s, r.s) && (r.More? ==> FollowsToRest(s, r.s))
  {
    hide ReservedName;
    var r := ForgetReclaim(s, lands);
    if r.More? {
      assert Since(s, r.s) == [ForgotReclaim(s.cr.reclaimName)];
      ReplayOne(Intent(s.cr.reclaimName, false), ForgotReclaim(s.cr.reclaimName), ReservedName(s.cr.spec));
    } else {
      assert Since(s, r.s) == [];
    }
  }

  lemma DeleteThenForget(i: Intent, key: NameKey, reply: Reply, wanted: string)
    requires i.pending != "" && key.name == i.pending && i.pending != wanted
    ensures Replay(Some(i), [DeletedName(key, reply)], wanted)
         == Some(Intent(i.pending, i.settled || reply == Ok || reply == Unauthorized))
    ensures reply == Ok || reply == Unauthorized ==>
              Replay(Some(i), [DeletedName(key, reply)] + [ForgotReclaim(i.pending)], wanted) == Some(Intent("", false))
  {
    ReplayOne(i, DeletedName(key, reply), wanted);
    var next := Advance(i, DeletedName(key, reply), wanted);
    ReplayConcat(Some(i), [DeletedName(key, reply)], [ForgotReclaim(i.pending)], wanted);
    ReplayOne(next.value, ForgotReclaim(i.pending), wanted);
  }

  lemma FlushFollows(s: St, fault: Fault, lands: bool)
    ensures var r := FlushReclaimName(s, fault, lands);
            Follows(s, r.s) && (r.More? ==> FollowsToRest(s, r.s))
  {
    hide ReservedName, NamespaceToken, DeleteReply;
    var x := s.cr.reclaimName;
    if x == "" {
      assert Since(s, s) == [];
    } else if x == ReservedName(s.cr.spec) {
      ForgetFollows(s, lands);
    } else {
      var key := NameKey(NamespaceToken(s.cr.spec), x);
      var reply := DeleteReply(s.net, key, fault);
      var r := FlushReclaimName(s, fault, lands);
      DeleteThenForget(Intent(x, false), key, reply, ReservedName(s.cr.spec));
      if r.More? {
        assert r.s.net.log == s.net.log + ([DeletedName(key, reply)] + [ForgotReclaim(x)]);
        assert Since(s, r.s) == [DeletedName(key, reply)] + [ForgotReclaim(x)];
      } else {
        assert Since(s, r.s) == [DeletedName(key, reply)];
      }
    }
  }

  lemma EnsureQuiet(s: St, p: Plan)
    ensures var r := EnsureReservedName(s, p); s.net.log <= r.s.net.log && AllQuiet(Since(s, r.s))
  {
    hide Conditions.Apply, NamespaceToken, NameRefused, PromoteName;
    var created := CreateShareName(s.net, WantedKey(s.cr.spec), p.createName);
    var s1 := s.(net := created.net);
    PromoteQuiet(s1, p);
    RefusedFrame(Noted(s1, p.noteLands, NameNotReady(s1.cr, Conditions.Reason.NameError, p.errText, p.now)),
                 created.reply, p);
    assert created.net.log == s.net.log + [CreatedName(WantedKey(s.cr.spec))];
  }

  lemma PromoteQuiet(s: St, p: Plan)
    ensures PromoteName(s, p).s.net.log == s.net.log + [ReservedIt(WantedKey(s.cr.spec))]
  {
    hide Conditions.Apply, NamespaceToken;
  }

  lemma NamesFollow(s: St, p: Plan)
    ensures var r := Names(s, p); Follows(s, r.s) && (r.More? ==> FollowsToRest(s, r.s))
  {
    hide EnsureReservedName, FlushReclaimName, Follows, FollowsToRest;
    EnsureQuiet(s, p);
    EnsureFrame(s, p);
    var ensured := EnsureReservedName(s, p);
    QuietFollows(s, ensured.s);
    if ensured.More? {
      FlushFollows(ensured.s, p.flush, p.flushLands);
      FollowsOn(s, ensured.s, FlushReclaimName(ensured.s, p.flush, p.flushLands).s);
    }
  }

  lemma RecordFollows(s: St, oldName: string)
    requires s.cr.reclaimName == "" && oldName != "" && oldName != ReservedName(s.cr.spec)
    ensures FollowsToRest(s, St(s.cr.(reclaimName := oldName), s.net.(log := s.net.log + [RecordedReclaim(oldName)])))
  {
    hide ReservedName;
    var t := St(s.cr.(reclaimName := oldName), s.net.(log := s.net.log + [RecordedReclaim(oldName)]));
    assert Since(s, t) == [RecordedReclaim(oldName)];
    ReplayOne(Intent("", false), RecordedReclaim(oldName), ReservedName(s.cr.spec));
  }

  lemma ReclaimFollows(s: St, oldName: string, wasReserved: bool, p: Plan)
    requires s.cr.reclaimName == ""
    ensures var r := ReclaimPreviousName(s, oldName, wasReserved, p);
            Follows(s, r.s) && (r.More? ==> FollowsToRest(s, r.s))
  {
    hide FlushReclaimName, Follows, FollowsToRest, ReservedName;
    QuietFollows(s, s);
    if wasReserved && oldName != "" && oldName != ReservedName(s.cr.spec) && s.cr.spec.reclaimPolicy != Retain
       && p.recordLands {
      var noted := St(s.cr.(reclaimName := oldName), s.net.(log := s.net.log + [RecordedReclaim(oldName)]));
      RecordFollows(s, oldName);
      FlushFollows(noted, p.reclaim, p.reclaimLands);
      FollowsOn(s, noted, FlushReclaimName(noted, p.reclaim, p.reclaimLands).s);
    }
  }

  lemma ReleaseQuiet(s: St, token: string, p: Plan)
    requires p.env.Env?
    ensures var r := ReleaseAndClear(s, token, p);
            && s.net.log <= r.s.net.log && AllQuiet(Since(s, r.s))
            && r.s.cr.reclaimName == s.cr.reclaimName && r.s.cr.spec == s.cr.spec
  {
    hide Conditions.Apply;
  }

  lemma TakeDownFollows(s: St, cls: Classified, p: Plan)
    requires p.env.Env? && s.cr.reclaimName == ""
    ensures var r := TakeDown(s, cls, p); Follows(s, r.s) && (r.More? ==> FollowsToRest(s, r.s))
  {
    hide ReleaseTarget, ReleaseAndClear, ReclaimPreviousName, Follows, FollowsToRest, LiveFrontendName;
    QuietFollows(s, s);
    var target := ReleaseTarget(s.cr, cls);
    if target.Some? {
      ReleaseQuiet(s, target.value, p);
      var released := ReleaseAndClear(s, target.value, p);
      QuietFollows(s, released.s);
      if released.More? {
        ReclaimFollows(released.s, LiveFrontendName(s.cr, cls), s.cr.status.reservation == Reserved, p);
        FollowsOn(s, released.s,
                  ReclaimPreviousName(released.s, LiveFrontendName(s.cr, cls),
                                      s.cr.status.reservation == Reserved, p).s);
      }
    }
  }

  lemma CreateQuiet(s: St, digest: string, p: Plan)
    requires p.env.Env?
    ensures var r := Create(s, digest, p); s.net.log <= r.s.net.log && AllQuiet(Since(s, r.s))
  {
    hide HandleShareConflict, MarkShareReady, EndNotReady, RemoteByName, RemoteByToken, CreatedRemote, CreatedDetail;
    var shared := SharePublic(s.net, s.cr.id, s.cr.spec, p.share, p.newToken, p.newEndpoints);
    var private := SharePrivate(s.net, s.cr.id, s.cr.spec, p.share, p.newToken);
    MarkFrame(s.(net := shared.net), p.newToken, p.newEndpoints, digest, p);
    MarkFrame(s.(net := private.net), VanityOr(s.cr.spec, p.newToken), [], digest, p);
    EndFrame(s, Conditions.Reason.ShareError, p.errText, p, Errored);
    ConflictQuiet(s, digest, p);
  }

  lemma ConflictQuiet(s: St, digest: string, p: Plan)
    requires p.env.Env?
    ensures var r := HandleShareConflict(s, digest, p); s.net.log <= r.s.net.log && AllQuiet(Since(s, r.s))
  {
    hide Classify, LoadInventory, AdoptableAgentShare, ConflictTarget, MarkShareReady, EndNotReady, EndNameConflict;
    hide ReleaseHolder;
    var cls := ConflictView(s, p);
    if cls.agent.Some? {
      MarkFrame(s, cls.agent.value.token, cls.agent.value.frontendEndpoints, digest, p);
    }
    AdoptedIsAgent(s.cr, cls, digest);
    EndFrame(s, Conditions.Reason.InventoryError, p.errText, p, Errored);
    EndFrame(s, Conditions.Reason.ShareError, "", p, Requeued);
    var target := ConflictTarget(s.cr, cls);
    if target.Some? {
      HolderQuiet(s, target.value, p);
    }
  }

  lemma AdoptedIsAgent(c: ZrokShare, cls: Classified, digest: string)
    ensures AdoptableAgentShare(c, cls, digest).Some? ==> AdoptableAgentShare(c, cls, digest) == cls.agent
  {}

  lemma HolderQuiet(s: St, token: string, p: Plan)
    requires p.env.Env?
    ensures var r := ReleaseHolder(s, token, p); s.net.log <= r.s.net.log && AllQuiet(Since(s, r.s))
  {
    hide Conditions.Apply;
  }

  lemma ConvergeFollows(s: St, digest: string, p: Plan)
    requires p.env.Env?
    ensures Follows(s, Converge(s, digest, p).s)
  {
    hide Survey, Names, TakeDown, Create, MarkShareReady, Classify, AdoptableAgentShare, ReleaseTarget, Follows;
    hide FollowsToRest;
    var cls := Classify(s.cr, LoadInventory(s.net, p.env.zid, p.remoteListed, p.agentAnswers));
    SurveyFrame(s, cls, digest, p);
    var surveyed := Survey(s, cls, digest, p);
    QuietFollows(s, surveyed.s);
    NamesFollow(s, p);
    NamesFrame(s, p);
    var named := Names(s, p);
    if surveyed.More? && named.More? {
      var adopted := AdoptableAgentShare(named.s.cr, cls, digest);
      if adopted.Some? {
        MarkFrame(named.s, adopted.value.token, adopted.value.frontendEndpoints, digest, p);
        var marked := MarkShareReady(named.s, adopted.value.token, adopted.value.frontendEndpoints, digest, p);
        QuietFollows(named.s, marked.s);
        FollowsOn(s, named.s, marked.s);
      } else {
        TakeDownFollows(named.s, cls, p);
        TakeDownFrame(named.s, cls, p);
        var down := TakeDown(named.s, cls, p);
        FollowsOn(s, named.s, down.s);
        if down.More? {
          CreateQuiet(down.s, digest, p);
          CreateFrame(down.s, digest, p);
          var created := Create(down.s, digest, p);
          QuietFollows(down.s, created.s);
          FollowsOn(s, down.s, created.s);
        }
      }
    }
  }

  /** Whatever fails, a reconcile keeps to the protocol: it deletes only the recorded name and never the wanted one,
      records only when nothing is recorded, and forgets only what is settled or wanted again. */
  lemma ReconcileFollows(s: St, rival: bool, p: Plan)
    ensures Follows(s, Reconcile(s, rival, p).s)
  {
    hide Admit, Converge, ApplyDigest, Follows;
    AdmitFrame(s, rival, p);
    var admitted := Admit(s, rival, p);
    QuietFollows(s, admitted.s);
    if admitted.More? {
      ConvergeFollows(s, ApplyDigest(s.cr.spec, p.basicAuth.value), p);
    }
  }

  // ----- what the protocol means for one recorded name -----

  /** Event `e` settles the fate of `name`. */
  predicate Settles(e: Event, name: string) {
    e.DeletedName? && e.key.name == name && (e.reply == Ok || e.reply == Unauthorized)
  }

  lemma {:induction false} ForgottenOnlyIfSettled(i: Intent, events: seq<Event>, wanted: string)
    requires Replay(Some(i), events, wanted).Some? && i.pending != "" && i.pending != wanted && !i.settled
    requires Replay(Some(i), events, wanted).value.pending != i.pending
    ensures exists k :: 0 <= k < |events| && Settles(events[k], i.pending)
    decreases |events|
  {
    if events != [] {
      var next := Advance(i, events[0], wanted);
      if !Settles(events[0], i.pending) {
        assert next == Some(i);
        ForgottenOnlyIfSettled(i, events[1..], wanted);
        var k :| 0 <= k < |events[1..]| && Settles(events[1..][k], i.pending);
        assert Settles(events[k + 1], i.pending);
      }
    }
  }

  /** A step of a run settles `name` for `id`: it deletes it, learns that it cannot, or finds it wanted again. */
  ghost predicate StepSettles(w: World, a: Action, id: Id, name: string) {
    && a.Run? && a.id == id && id in w.crs
    && (ReservedName(w.crs[id].spec) == name
        || exists k :: |w.net.log| <= k < |Step(w, a).net.log| && Settles(Step(w, a).net.log[k], name))
  }

  lemma StepKeepsIntent(w: World, a: Action, id: Id)
    requires id in w.crs && w.crs[id].reclaimName != "" && id in Step(w, a).crs && !w.crs[id].deleting
    requires Step(w, a).crs[id].reclaimName != w.crs[id].reclaimName
    ensures StepSettles(w, a, id, w.crs[id].reclaimName)
  {
    hide Reconcile, ReconcileDelete, Rival, ReservedName;
    var s := St(w.crs[id], w.net);
    assert a.Run? && a.id == id;
    ReconcileFollows(s, Rival(w.crs, id), a.plan);
    ReconcileFrame(s, Rival(w.crs, id), a.plan);
    var t := Reconcile(s, Rival(w.crs, id), a.plan).s;
    assert Step(w, a).net == t.net && Step(w, a).crs[id] == t.cr;
    if ReservedName(s.cr.spec) != s.cr.reclaimName {
      ForgottenOnlyIfSettled(Intent(s.cr.reclaimName, false), Since(s, t), ReservedName(s.cr.spec));
      var k :| 0 <= k < |Since(s, t)| && Settles(Since(s, t)[k], s.cr.reclaimName);
      assert Settles(t.net.log[|s.net.log| + k], s.cr.reclaimName);
    }
  }

  /** `id` stays and is not being deleted. */
  ghost predicate StaysLive(w: World, actions: seq<Action>, id: Id) {
    && id in After(w, actions).crs && !After(w, actions).crs[id].deleting
    && (actions != [] ==> StaysLive(w, actions[..|actions| - 1], id))
  }

  /** Through any run of edits, restarts, failures and retries, a recorded name leaves the annotation only at a step
      that settled it. */
  lemma {:induction false} IntentSurvives(w: World, actions: seq<Action>, id: Id)
    requires StaysLive(w, actions, id) && id in w.crs && w.crs[id].reclaimName != ""
    requires After(w, actions).crs[id].reclaimName != w.crs[id].reclaimName
    ensures exists k :: 0 <= k < |actions| && StepSettles(After(w, actions[..k]), actions[k], id, w.crs[id].reclaimName)
  {
    hide Step, StepSettles;
    if actions != [] {
      var n := |actions| - 1;
      var earlier := actions[..n];
      if After(w, earlier).crs[id].reclaimName != w.crs[id].reclaimName {
        IntentSurvives(w, earlier, id);
        var k :| 0 <= k < |earlier| && StepSettles(After(w, earlier[..k]), earlier[k], id, w.crs[id].reclaimName);
        assert earlier[..k] == actions[..k] && earlier[k] == actions[k];
      } else {
        StepKeepsIntent(After(w, earlier), actions[n], id);
      }
    }
  }
}
