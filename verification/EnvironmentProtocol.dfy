/** Enabling a remote environment once, however many reconciles try at the same time and whatever they read
    (controller/environment_controller.go, ensureEnabled and adoptIdentitySecret). */
module EnvironmentProtocol {
  import opened Options

  /** The identity Secret. `owned` says that this environment is its controller. */
  datatype Secret = Secret(owned: bool, zid: string)

  /** What reconciles share: status.envZID, the Secret under the fixed name, and the identities enabled remotely. */
  datatype Store = Store(envZID: string, secret: Option<Secret>, enabled: set<string>)

  /** Where one run of ensureEnabled stands. `copy` is status.envZID in the run's own, perhaps stale, copy of the
      resource. */
  datatype Phase =
    | Reading(copy: string)
    | Clearing
    | Enabling
    | Holding(zid: string)
    | Undoing(zid: string)
    | Writing(zid: string)
    | Discarding
    | Finished(ok: bool)

  /** How the call a run is about to make turns out. */
  datatype Reply = Got(found: Option<Secret>) | Gave(zid: string) | Done | Failed

  datatype Next = Next(store: Store, phase: Phase)

  /** An identity Secret is trusted only when owned and complete. */
  predicate Trusted(s: Secret) {
    s.owned && s.zid != ""
  }

  function Judge(found: Option<Secret>, copy: string): Phase {
    if found.None? then (if copy != "" then Clearing else Enabling)
    else if !Trusted(found.value) then Discarding
    else if copy == "" then Writing(found.value.zid)
    else Finished(copy == found.value.zid)
  }

  /** One call of one run. */
  function Act(s: Store, phase: Phase, r: Reply): Next {
    match phase
    case Reading(copy) => if r.Got? then Next(s, Judge(r.found, copy)) else Next(s, Finished(false))
    case Clearing => Next(if r == Done then s.(envZID := "") else s, Enabling)
    case Enabling =>
      if r.Gave? then Next(s.(enabled := s.enabled + {r.zid}), Holding(r.zid)) else Next(s, Finished(false))
    case Holding(zid) =>
      if r == Done && s.secret.None? then Next(s.(secret := Some(Secret(true, zid))), Writing(zid))
      else Next(s, Undoing(zid))
    case Undoing(zid) => Next(if r == Done then s.(enabled := s.enabled - {zid}) else s, Finished(false))
    case Writing(zid) => if r == Done then Next(s.(envZID := zid), Finished(true)) else Next(s, Finished(false))
    case Discarding => Next(if r == Done then s.(secret := None) else s, Finished(false))
    case Finished(_) => Next(s, phase)
  }

  // ----- many runs -----

  /** `past` holds every Secret there ever was (a cached read may return any of them), `issued` every identity ever
      enabled, and `orphans` the identities that were given up: a Disable failed, or their Secret was deleted. */
  datatype World = World(store: Store, runs: map<nat, Phase>, past: set<Secret>, issued: set<string>,
                         orphans: set<string>)

  datatype Action =
    | Begin(run: nat, copy: string)     // a reconcile starts, with whatever it believes status.envZID to be
    | Go(run: nat, reply: Reply)        // it makes its next call
    | Plant(secret: Secret)             // someone else creates a Secret under the name
    | Lose                              // someone deletes the Secret by hand

  function Identity(secret: Option<Secret>): set<string> {
    if secret.Some? && Trusted(secret.value) then {secret.value.zid} else {}
  }

  function Recorded(secret: Option<Secret>): set<Secret> {
    if secret.Some? then {secret.value} else {}
  }

  /** What a call gives up for good. */
  function Abandoned(s: Store, phase: Phase, r: Reply): set<string> {
    match phase
    case Undoing(zid) => if r == Done then {} else {zid}
    case Discarding => if r == Done then Identity(s.secret) else {}
    case _ => {}
  }

  function Step(w: World, a: Action): World {
    match a
    case Begin(i, copy) => if i in w.runs then w else w.(runs := w.runs[i := Reading(copy)])
    case Go(i, r) =>
      if i !in w.runs then w
      else
        var n := Act(w.store, w.runs[i], r);
        World(n.store, w.runs[i := n.phase], w.past + Recorded(n.store.secret),
              if r.Gave? then w.issued + {r.zid} else w.issued, w.orphans + Abandoned(w.store, w.runs[i], r))
    case Plant(secret) =>
      if w.store.secret.Some? then w else w.(store := w.store.(secret := Some(secret)), past := w.past + {secret})
    case Lose => w.(store := w.store.(secret := None), orphans := w.orphans + Identity(w.store.secret))
  }

  function After(w: World, actions: seq<Action>): World {
    if actions == [] then w else Step(After(w, actions[..|actions| - 1]), actions[|actions| - 1])
  }

  /** Reads may be stale but not invented; identities are fresh; nobody forges a complete Secret that we own. */
  predicate Legit(w: World, a: Action) {
    match a
    case Begin(_, _) => true
    case Go(_, r) =>
      && (r.Got? && r.found.Some? ==> r.found.value in w.past)
      && (r.Gave? ==> r.zid != "" && r.zid !in w.issued)
    case Plant(secret) => !Trusted(secret)
    case Lose => true
  }

  predicate LegitRun(w: World, actions: seq<Action>) {
    actions == []
    || (LegitRun(w, actions[..|actions| - 1]) && Legit(After(w, actions[..|actions| - 1]), actions[|actions| - 1]))
  }

  const NOTHING := World(Store("", None, {}), map[], {}, {}, {})

  // ----- every identity is accounted for -----

  predicate Holds(phase: Phase) {
    phase.Holding? || phase.Undoing?
  }

  function Held(runs: map<nat, Phase>): set<string> {
    set i | i in runs && Holds(runs[i]) :: runs[i].zid
  }

  /** Identities that are, or were, in a Secret of ours. */
  function Known(w: World): set<string> {
    Identity(w.store.secret) + w.orphans
  }

  ghost predicate HeldApart(w: World) {
    && (forall i, j :: i in w.runs && j in w.runs && i != j && Holds(w.runs[i]) && Holds(w.runs[j]) ==>
          w.runs[i].zid != w.runs[j].zid)
    && (forall i :: i in w.runs && Holds(w.runs[i]) ==> w.runs[i].zid !in Known(w) && w.runs[i].zid != "")
  }

  /** The identities enabled remotely are exactly those held by a run in flight, the one in the Secret, and the orphans;
      and no identity is two of these. */
  ghost predicate Accounted(w: World) {
    && w.store.enabled == Held(w.runs) + Identity(w.store.secret) + w.orphans
    && Identity(w.store.secret) !! w.orphans && HeldApart(w)
  }

  ghost predicate Invariant(w: World) {
    && Accounted(w)
    && w.store.enabled <= w.issued
    && (forall i :: i in w.runs && Holds(w.runs[i]) ==> w.runs[i].zid in w.issued)
    && (forall i :: i in w.runs && w.runs[i].Writing? ==> w.runs[i].zid in Known(w))
    && (forall s :: s in w.past && Trusted(s) ==> s.zid in Known(w))
    && (w.store.secret.Some? ==> w.store.secret.value in w.past)
    && (w.store.envZID == "" || w.store.envZID in Known(w))
  }

  lemma HeldAfter(runs: map<nat, Phase>, i: nat, phase: Phase)
    requires i in runs
    requires forall j, k :: j in runs && k in runs && j != k && Holds(runs[j]) && Holds(runs[k]) ==>
               runs[j].zid != runs[k].zid
    ensures Held(runs[i := phase])
            == (Held(runs) - (if Holds(runs[i]) then {runs[i].zid} else {}))
               + (if Holds(phase) then {phase.zid} else {})
  {
    var after := runs[i := phase];
    forall z | z in Held(runs) && !(Holds(runs[i]) && z == runs[i].zid)
      ensures z in Held(after)
    {
      var j :| j in runs && Holds(runs[j]) && runs[j].zid == z;
      assert j in after && after[j] == runs[j];
    }
    if Holds(phase) {
      assert i in after && after[i].zid == phase.zid;
    }
  }

  lemma Apart(w: World)
    requires HeldApart(w)
    ensures forall i, j :: i in w.runs && j in w.runs && i != j && Holds(w.runs[i]) && Holds(w.runs[j]) ==>
              w.runs[i].zid != w.runs[j].zid
    ensures forall i :: i in w.runs && Holds(w.runs[i]) ==>
              w.runs[i].zid !in Known(w) && w.runs[i].zid in Held(w.runs) && w.runs[i].zid != ""
  {}

  /** A run holds what it held or what it was just given; what becomes known it holds no longer. */
  lemma WhoHolds(w: World, i: nat, r: Reply)
    requires i in w.runs && Identity(w.store.secret) <= w.store.enabled
    ensures var before, phase, after := w.runs[i], Act(w.store, w.runs[i], r).phase, Step(w, Go(i, r));
            && (Holds(phase) ==>
                  (Holds(before) && before.zid == phase.zid) || (before.Enabling? && r.Gave? && phase.zid == r.zid))
            && (forall z :: z in Known(after) && z !in Known(w) ==> Holds(before) && z == before.zid && !Holds(phase))
  {}

  /** No call gives a run an identity that another run holds or that is known. */
  lemma GoApart(w: World, i: nat, r: Reply)
    requires Invariant(w) && Legit(w, Go(i, r)) && i in w.runs
    ensures HeldApart(Step(w, Go(i, r)))
  {
    hide Held, Recorded, Act, Known, Abandoned;
    WhoHolds(w, i, r);
    KnownIssued(w);
    var after := Step(w, Go(i, r));
    var phase := Act(w.store, w.runs[i], r).phase;
    assert after.runs == w.runs[i := phase];
    forall j | j in after.runs && Holds(after.runs[j])
      ensures after.runs[j].zid !in Known(after)
    {}
  }

  lemma KnownIssued(w: World)
    requires Accounted(w) && w.store.enabled <= w.issued
    ensures Known(w) <= w.issued
  {}

  lemma GoAccounts(w: World, i: nat, r: Reply)
    requires Invariant(w) && Legit(w, Go(i, r)) && i in w.runs
    ensures Accounted(Step(w, Go(i, r)))
  {
    hide Held, HeldApart, Recorded;
    GoApart(w, i, r);
    Apart(w);
    var phase, after := Act(w.store, w.runs[i], r).phase, Step(w, Go(i, r));
    HeldAfter(w.runs, i, phase);
    assert after.runs == w.runs[i := phase];
    assert Identity(after.store.secret) !! after.orphans;
    assert after.store.enabled == Held(after.runs) + Identity(after.store.secret) + after.orphans;
  }

  lemma GoRecords(w: World, i: nat, r: Reply)
    requires Invariant(w) && Legit(w, Go(i, r)) && i in w.runs && Accounted(Step(w, Go(i, r)))
    ensures Invariant(Step(w, Go(i, r)))
  {
    hide Held, HeldApart;
    Apart(w);
    var after := Step(w, Go(i, r));
    assert Known(w) <= Known(after);
  }

  lemma OthersKeep(w: World, a: Action)
    requires Invariant(w) && Legit(w, a) && (a.Begin? || a.Plant? || a.Lose?)
    ensures Invariant(Step(w, a))
  {
    hide Held;
    match a
    case Begin(i, copy) =>
      if i !in w.runs {
        NewHoldsNothing(w.runs, i, copy);
      }
    case Plant(_) =>
    case Lose => LostStaysKnown(w);
  }

  lemma NewHoldsNothing(runs: map<nat, Phase>, i: nat, copy: string)
    requires i !in runs
    ensures Held(runs[i := Reading(copy)]) == Held(runs)
  {
    var after := runs[i := Reading(copy)];
    forall z | z in Held(runs)
      ensures z in Held(after)
    {
      var j :| j in runs && Holds(runs[j]) && runs[j].zid == z;
      assert j in after && after[j] == runs[j];
    }
  }

  lemma LostStaysKnown(w: World)
    ensures Known(Step(w, Lose)) == Known(w)
  {}

  /** In every run of any number of reconciles, whatever they read and whatever fails, every enabled identity is held by
      a reconcile in flight, or is the one in the owned Secret, or was given up; and status.envZID is never anything
      but a recorded identity. */
  lemma {:induction false} EveryIdentityAccounted(actions: seq<Action>)
    requires LegitRun(NOTHING, actions)
    ensures Invariant(After(NOTHING, actions))
  {
    hide Step, Legit, Invariant;
    if actions == [] {
      NothingAccounted();
    } else {
      var earlier, a := actions[..|actions| - 1], actions[|actions| - 1];
      EveryIdentityAccounted(earlier);
      StepKeeps(After(NOTHING, earlier), a);
    }
  }

  lemma NothingAccounted()
    ensures Invariant(NOTHING)
  {}

  lemma StepKeeps(w: World, a: Action)
    requires Invariant(w) && Legit(w, a)
    ensures Invariant(Step(w, a))
  {
    hide Invariant, Legit, Act, Abandoned, Recorded, Identity;
    if a.Go? {
      if a.run in w.runs {
        GoAccounts(w, a.run, a.reply);
        GoRecords(w, a.run, a.reply);
      }
    } else {
      OthersKeep(w, a);
    }
  }

  // ----- when nobody interferes -----

  /** Every Disable succeeds and nobody else touches the Secret. */
  predicate Gentle(w: World, a: Action) {
    && !a.Plant? && !a.Lose?
    && (a.Go? && a.run in w.runs && w.runs[a.run].Undoing? ==> a.reply == Done)
  }

  predicate GentleRun(w: World, actions: seq<Action>) {
    actions == []
    || (GentleRun(w, actions[..|actions| - 1]) && Gentle(After(w, actions[..|actions| - 1]), actions[|actions| - 1]))
  }

  ghost predicate Unspoilt(w: World) {
    && w.orphans == {} && (forall s :: s in w.past ==> Trusted(s))
    && (w.store.secret.Some? ==> w.store.secret.value in w.past)
    && (forall i :: i in w.runs ==> !w.runs[i].Discarding?)
    && (forall i :: i in w.runs && Holds(w.runs[i]) ==> w.runs[i].zid != "")
  }

  lemma StaysUnspoilt(w: World, a: Action)
    requires Unspoilt(w) && Legit(w, a) && Gentle(w, a)
    ensures Unspoilt(Step(w, a))
  {}

  lemma {:induction false} RunUnspoilt(actions: seq<Action>)
    requires LegitRun(NOTHING, actions) && GentleRun(NOTHING, actions)
    ensures Unspoilt(After(NOTHING, actions))
  {
    hide Step, Legit, Gentle;
    if actions != [] {
      RunUnspoilt(actions[..|actions| - 1]);
      StaysUnspoilt(After(NOTHING, actions[..|actions| - 1]), actions[|actions| - 1]);
    }
  }

  /** Losers of the race undo their own Enable: whenever no reconcile holds an identity, at most one is enabled, the one
      in the owned Secret. And status.envZID is always empty or that one. */
  lemma OneIdentity(actions: seq<Action>)
    requires LegitRun(NOTHING, actions) && GentleRun(NOTHING, actions)
    ensures var w := After(NOTHING, actions);
            && w.store.enabled == Held(w.runs) + Identity(w.store.secret)
            && (w.store.envZID == "" || w.store.envZID in Identity(w.store.secret))
            && ((forall i :: i in w.runs ==> !Holds(w.runs[i])) ==>
                  w.store.enabled == Identity(w.store.secret) && |w.store.enabled| <= 1)
  {
    hide After, LegitRun, GentleRun;
    EveryIdentityAccounted(actions);
    RunUnspoilt(actions);
  }

  // ----- one reconcile by itself -----

  /** How the calls of one reconcile turn out; `enable` carries the identity that Enable hands out. */
  datatype Calls = Calls(read: bool, blank: bool, enable: Option<string>, create: bool, disable: bool, write: bool,
                         discard: bool)

  function Landed(lands: bool): Reply {
    if lands then Done else Failed
  }

  function ReplyTo(s: Store, phase: Phase, c: Calls): Reply {
    match phase
    case Reading(_) => if c.read then Got(s.secret) else Failed
    case Clearing => Landed(c.blank)
    case Enabling => if c.enable.Some? then Gave(c.enable.value) else Failed
    case Holding(_) => Landed(c.create)
    case Undoing(_) => Landed(c.disable)
    case Writing(_) => Landed(c.write)
    case Discarding => Landed(c.discard)
    case Finished(_) => Failed
  }

  function CallsLeft(phase: Phase): nat {
    match phase
    case Reading(_) => 5
    case Clearing => 4
    case Enabling => 3
    case Holding(_) => 2
    case Finished(_) => 0
    case _ => 1
  }

  /** The rest of a run that nobody interleaves with. */
  function Alone(s: Store, phase: Phase, c: Calls): (n: Next)
    ensures n.phase.Finished?
    decreases CallsLeft(phase)
  {
    if phase.Finished? then Next(s, phase)
    else
      var n := Act(s, phase, ReplyTo(s, phase, c));
      Alone(n.store, n.phase, c)
  }

  function EnsureEnabled(s: Store, c: Calls): (n: Next)
    ensures n.phase.Finished?
  {
    Alone(s, Reading(s.envZID), c)
  }

  /** Enabled once: the identity is in the owned Secret, in status, and nowhere else. */
  predicate EnabledOnce(s: Store) {
    s.secret.Some? && Trusted(s.secret.value) && s.envZID == s.secret.value.zid && s.enabled == {s.envZID}
  }

  /** Nobody holds an identity and none was given up. */
  predicate Quiet(s: Store) {
    s.enabled == Identity(s.secret) && (s.envZID == "" || s.envZID in Identity(s.secret))
  }

  predicate AllSucceed(c: Calls) {
    c.read && c.enable.Some? && c.enable.value != "" && c.create && c.write && c.discard
  }

  lemma OneTry(s: Store, c: Calls)
    requires Quiet(s) && AllSucceed(c)
    ensures var n := EnsureEnabled(s, c);
            && Quiet(n.store)
            && (if s.secret.None? || Trusted(s.secret.value) then EnabledOnce(n.store) && n.phase == Finished(true)
                else n.store.secret.None? && n.phase == Finished(false))
  {
    var first := NextOf(s, Reading(s.envZID), c);
    if s.secret.None? {
      var second := NextOf(s, Enabling, c);
      var third := NextOf(second.store, second.phase, c);
      var fourth := NextOf(third.store, third.phase, c);
    } else if first.phase.Writing? || first.phase.Discarding? {
      var second := NextOf(s, first.phase, c);
    }
  }

  /** One call of an undisturbed run; what follows is the rest of it. */
  function NextOf(s: Store, phase: Phase, c: Calls): (n: Next)
    ensures phase.Finished? ==> Alone(s, phase, c) == Next(s, phase)
    ensures Alone(s, phase, c) == Alone(n.store, n.phase, c)
    ensures n.phase.Finished? ==> Alone(n.store, n.phase, c) == n
  {
    Act(s, phase, ReplyTo(s, phase, c))
  }

  /** From any quiet state two undisturbed reconciles settle, even past a planted or incomplete Secret. */
  lemma TwoTriesSettle(s: Store, first: Calls, second: Calls)
    requires Quiet(s) && AllSucceed(first) && AllSucceed(second)
    ensures EnabledOnce(EnsureEnabled(EnsureEnabled(s, first).store, second).store)
  {
    hide EnsureEnabled;
    OneTry(s, first);
    OneTry(EnsureEnabled(s, first).store, second);
  }

  /** Once settled, no further reconcile changes anything, whatever fails. */
  lemma EnabledOnceStays(s: Store, c: Calls)
    requires EnabledOnce(s)
    ensures EnsureEnabled(s, c) == Next(s, Finished(c.read))
  {
    var _ := NextOf(s, Reading(s.envZID), c);
  }

  /** What an undisturbed run makes of a Secret that is there: one that is not owned, or without identity, is deleted
      and never adopted; a good one is recorded in an empty status and otherwise only compared. Nothing is enabled. */
  lemma SecretDecides(s: Store, c: Calls)
    requires s.secret.Some? && c.read
    ensures var n, found := EnsureEnabled(s, c), s.secret.value;
            if !found.owned || found.zid == ""
            then n.phase == Finished(false) && n.store == if c.discard then s.(secret := None) else s
            else if s.envZID == ""
            then n.phase == Finished(c.write) && n.store == if c.write then s.(envZID := found.zid) else s
            else n == Next(s, Finished(s.envZID == found.zid))
  {
    var first := NextOf(s, Reading(s.envZID), c);
    var _ := NextOf(first.store, first.phase, c);
  }

  /** And of a missing one: a new identity is enabled; with its Secret created it is ours, recorded or not; with the
      Secret refused it is disabled again, if that works. */
  lemma NoSecretEnables(s: Store, c: Calls)
    requires s.secret.None?
    ensures var n := EnsureEnabled(s, c);
            && (!c.read ==> n == Next(s, Finished(false)))
            && (c.read && c.enable.None? ==>
                  n.phase == Finished(false) && n.store.enabled == s.enabled && n.store.secret.None?
                  && n.store.envZID == if c.blank then "" else s.envZID)
            && (c.read && c.enable.Some? && c.create ==>
                  && n.phase == Finished(c.write) && n.store.secret == Some(Secret(true, c.enable.value))
                  && n.store.enabled == s.enabled + {c.enable.value}
                  && n.store.envZID == if c.write then c.enable.value else if c.blank then "" else s.envZID)
            && (c.read && c.enable.Some? && !c.create ==>
                  && n.phase == Finished(false) && n.store.secret.None?
                  && n.store.enabled == s.enabled + {c.enable.value} - if c.disable then {c.enable.value} else {})
  {
    var first := NextOf(s, Reading(s.envZID), c);
    var second := NextOf(first.store, first.phase, c);
    var third := NextOf(second.store, second.phase, c);
    var fourth := NextOf(third.store, third.phase, c);
    var _ := NextOf(fourth.store, fourth.phase, c);
  }

  /** The actions of run `i` when it runs by itself. */
  function Script(s: Store, phase: Phase, c: Calls, i: nat): seq<Action>
    decreases CallsLeft(phase)
  {
    if phase.Finished? then []
    else
      var r := ReplyTo(s, phase, c);
      var n := Act(s, phase, r);
      [Go(i, r)] + Script(n.store, n.phase, c, i)
  }

  lemma {:induction false} AfterConcat(w: World, a: seq<Action>, b: seq<Action>)
    ensures After(w, a + b) == After(After(w, a), b)
    decreases |b|
  {
    if b == [] {
      assert a + b == a;
    } else {
      assert (a + b)[..|a + b| - 1] == a + b[..|b| - 1];
      AfterConcat(w, a, b[..|b| - 1]);
    }
  }

  /** A reconcile by itself is one of the interleavings. */
  lemma {:induction false} AloneIsARun(w: World, i: nat, c: Calls)
    requires i in w.runs
    ensures var end := After(w, Script(w.store, w.runs[i], c, i));
            end.store == Alone(w.store, w.runs[i], c).store && i in end.runs
            && end.runs[i] == Alone(w.store, w.runs[i], c).phase
    decreases CallsLeft(w.runs[i])
  {
    var phase := w.runs[i];
    if !phase.Finished? {
      var r := ReplyTo(w.store, phase, c);
      var n := Act(w.store, phase, r);
      var next := Step(w, Go(i, r));
      AloneIsARun(next, i, c);
      AfterConcat(w, [Go(i, r)], Script(n.store, n.phase, c, i));
      assert After(w, [Go(i, r)]) == next;
    }
  }

  // ----- deletion, and what it misses -----

  /** What environment deletion does to the store: disable what status names, unless retained, then drop the Secret. */
  function Teardown(s: Store, retain: bool, dropLands: bool): Store {
    var disabled := if retain || s.envZID == "" then s else s.(enabled := s.enabled - {s.envZID});
    if dropLands then disabled.(secret := None) else disabled
  }

  /** Deletion goes by status alone: it leaves an identity enabled exactly when one was recorded in the Secret but not
      yet in status. */
  lemma TeardownMisses(s: Store, dropLands: bool)
    requires Quiet(s)
    ensures Teardown(s, false, dropLands).enabled == {} <==> Identity(s.secret) == {} || s.envZID != ""
  {}

  /** That state is reachable without interference: the status write after Create fails. */
  lemma UnrecordedReachable(z: string)
    requires z != ""
    ensures var run := [Begin(0, ""), Go(0, Got(None)), Go(0, Gave(z)), Go(0, Done), Go(0, Failed)];
            var w := After(NOTHING, run);
            && LegitRun(NOTHING, run) && GentleRun(NOTHING, run)
            && 0 in w.runs && w.runs[0].Finished? && w.store.envZID == ""
            && Teardown(w.store, false, true).enabled == {z}
  {
    var run := [Begin(0, ""), Go(0, Got(None)), Go(0, Gave(z)), Go(0, Done), Go(0, Failed)];
    Snoc([], run[0], [Begin(0, "")]);
    Snoc([Begin(0, "")], run[1], [Begin(0, ""), Go(0, Got(None))]);
    Snoc([Begin(0, ""), Go(0, Got(None))], run[2], [Begin(0, ""), Go(0, Got(None)), Go(0, Gave(z))]);
    Snoc([Begin(0, ""), Go(0, Got(None)), Go(0, Gave(z))], run[3],
         [Begin(0, ""), Go(0, Got(None)), Go(0, Gave(z)), Go(0, Done)]);
    Snoc([Begin(0, ""), Go(0, Got(None)), Go(0, Gave(z)), Go(0, Done)], run[4], run);
  }

  lemma Snoc(earlier: seq<Action>, a: Action, run: seq<Action>)
    requires run == earlier + [a]
    ensures After(NOTHING, run) == Step(After(NOTHING, earlier), a)
    ensures LegitRun(NOTHING, run) == (LegitRun(NOTHING, earlier) && Legit(After(NOTHING, earlier), a))
    ensures GentleRun(NOTHING, run) == (GentleRun(NOTHING, earlier) && Gentle(After(NOTHING, earlier), a))
  {
    assert run[..|run| - 1] == earlier;
  }
}
