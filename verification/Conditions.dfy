/** Status conditions (internal/status/conditions.go): a list that stands for a map keyed by condition type. */
module Conditions {
  import opened Options

  datatype ConditionStatus = True | False | Unknown

  /** Condition types: the API's own constants, and any other text. */
  datatype Kind = Ready | Enabled | AgentReady | EnvironmentReady | ShareCreated | NameReady | Custom(text: string)

  /** Condition reasons the controllers write. Fixed message texts are not written out: they go with the reason. */
  datatype Reason =
    | Unset | Ready | Created | Private | NameReserved | Ephemeral | Waiting | WaitingForEnvironment | Healing
    | NameConflict | NameError | ReserveError | InvalidSpec | UpstreamNotAllowed | BackendModeNotAllowed
    | EnvironmentMissing | SecretError | BasicAuthError | InventoryError | HealError | ShareError
    | Enabled | AccessError | ImageNotAllowed | EndpointNotAllowed | EnableError | PVCError | ServiceError
    | DeploymentError | NetworkPolicyError | AgentCheckError | WaitingForAgent | ConsoleUnreachable | SharesExist
    | Custom(text: string)

  datatype Condition = Condition(kind: Kind, status: ConditionStatus, reason: Reason, message: string, since: int,
                                 generation: int)

  const MESSAGE_LIMIT := 1024

  function Truncate(s: string, n: nat): (r: string)
    requires n >= 3
    ensures |r| <= n
    ensures |s| <= n ==> r == s
    ensures |s| > n ==> r == s[..n - 3] + "..."
  {
    if |s| <= n then s else s[..n - 3] + "..."
  }

  /** A call of SetCondition, at time `now`. */
  datatype Update = Update(kind: Kind, status: ConditionStatus, reason: Reason, message: string, generation: int,
                           now: int)

  function Lookup(conditions: seq<Condition>, kind: Kind): (r: Option<Condition>)
    ensures r.Some? ==> r.value in conditions && r.value.kind == kind
    ensures r.None? <==> forall i :: 0 <= i < |conditions| ==> conditions[i].kind != kind
  {
    if conditions == [] then None
    else if conditions[0].kind == kind then Some(conditions[0])
    else Lookup(conditions[1..], kind)
  }

  /** The condition an update leaves behind: a status that does not flip keeps its transition time. */
  function Fresh(prior: Option<Condition>, u: Update): Condition {
    Condition(u.kind, u.status, u.reason, Truncate(u.message, MESSAGE_LIMIT),
              if prior.Some? && prior.value.status == u.status then prior.value.since else u.now, u.generation)
  }

  function Apply(conditions: seq<Condition>, u: Update): seq<Condition> {
    if conditions == [] then [Fresh(None, u)]
    else if conditions[0].kind == u.kind then [Fresh(Some(conditions[0]), u)] + conditions[1..]
    else [conditions[0]] + Apply(conditions[1..], u)
  }

  function ApplyAll(conditions: seq<Condition>, updates: seq<Update>): seq<Condition> {
    if updates == [] then conditions
    else Apply(ApplyAll(conditions, updates[..|updates| - 1]), updates[|updates| - 1])
  }

  lemma {:induction false} ApplyAt(conditions: seq<Condition>, i: nat, u: Update)
    requires i < |conditions| && conditions[i].kind == u.kind
    requires forall k :: 0 <= k < i ==> conditions[k].kind != u.kind
    ensures Apply(conditions, u) == conditions[i := Fresh(Some(conditions[i]), u)]
  {
    if i > 0 {
      ApplyAt(conditions[1..], i - 1, u);
    }
  }

  lemma {:induction false} ApplyAtEnd(conditions: seq<Condition>, u: Update)
    requires forall k :: 0 <= k < |conditions| ==> conditions[k].kind != u.kind
    ensures Apply(conditions, u) == conditions + [Fresh(None, u)]
  {
    if conditions != [] {
      ApplyAtEnd(conditions[1..], u);
    }
  }

  predicate IsTrue(conditions: seq<Condition>, kind: Kind) {
    Lookup(conditions, kind).Some? && Lookup(conditions, kind).value.status.True?
  }

  function ReasonOf(conditions: seq<Condition>, kind: Kind): Reason {
    if Lookup(conditions, kind).Some? then Lookup(conditions, kind).value.reason else Reason.Unset
  }

  /** The caller's slice, which SetCondition overwrites or appends to. */
  class ConditionList {
    var items: seq<Condition>

    constructor (initial: seq<Condition>)
      ensures items == initial
    {
      items := initial;
    }

    method SetCondition(u: Update)
      modifies this
      ensures items == Apply(old(items), u)
    {
      var message := Truncate(u.message, MESSAGE_LIMIT);
      for i := 0 to |items|
        invariant items == old(items)
        invariant forall k :: 0 <= k < i ==> items[k].kind != u.kind
      {
        if items[i].kind == u.kind {
          ApplyAt(items, i, u);
          var current := items[i];
          if current.status == u.status && current.reason == u.reason
             && current.message == message && current.generation == u.generation {
            return;
          }
          var now := u.now;
          if current.status == u.status {
            now := current.since;
          }
          items := items[i := Condition(u.kind, u.status, u.reason, message, now, u.generation)];
          return;
        }
      }
      ApplyAtEnd(items, u);
      items := items + [Condition(u.kind, u.status, u.reason, message, u.now, u.generation)];
    }

    method IsTrueNow(kind: Kind) returns (isTrue: bool)
      ensures isTrue == IsTrue(items, kind)
    {
      for i := 0 to |items|
        invariant Lookup(items[i..], kind) == Lookup(items, kind)
      {
        if items[i].kind == kind {
          return items[i].status.True?;
        }
      }
      isTrue := false;
    }

    method ReasonNow(kind: Kind) returns (reason: Reason)
      ensures reason == ReasonOf(items, kind)
    {
      for i := 0 to |items|
        invariant Lookup(items[i..], kind) == Lookup(items, kind)
      {
        if items[i].kind == kind {
          return items[i].reason;
        }
      }
      reason := Reason.Unset;
    }
  }

  // ----- the list is a map -----

  ghost predicate UniqueKinds(conditions: seq<Condition>) {
    forall i, j :: 0 <= i < j < |conditions| ==> conditions[i].kind != conditions[j].kind
  }

  function AsMap(conditions: seq<Condition>): map<Kind, Condition> {
    if conditions == [] then map[] else AsMap(conditions[1..])[conditions[0].kind := conditions[0]]
  }

  function Find(m: map<Kind, Condition>, kind: Kind): Option<Condition> {
    if kind in m then Some(m[kind]) else None
  }

  lemma {:induction false} LookupIsMap(conditions: seq<Condition>, kind: Kind)
    ensures Lookup(conditions, kind) == Find(AsMap(conditions), kind)
  {
    if conditions != [] {
      LookupIsMap(conditions[1..], kind);
    }
  }

  lemma {:induction false} ApplyLookup(conditions: seq<Condition>, u: Update, kind: Kind)
    ensures Lookup(Apply(conditions, u), kind)
         == if kind == u.kind then Some(Fresh(Lookup(conditions, kind), u)) else Lookup(conditions, kind)
  {
    if conditions != [] {
      ApplyLookup(conditions[1..], u, kind);
    }
  }

  lemma {:induction false} ApplyKinds(conditions: seq<Condition>, u: Update)
    requires UniqueKinds(conditions)
    ensures UniqueKinds(Apply(conditions, u))
    ensures forall c :: c in Apply(conditions, u) ==> c.kind == u.kind || c in conditions
  {
    if conditions != [] && conditions[0].kind != u.kind {
      ApplyKinds(conditions[1..], u);
      var rest := Apply(conditions[1..], u);
      forall j | 0 <= j < |rest|
        ensures rest[j].kind != conditions[0].kind
      {
        assert rest[j] in rest;
      }
    }
  }

  /** Any history of updates keeps types unique and acts on the map one key at a time. */
  lemma {:induction false} HistoryIsMap(updates: seq<Update>)
    ensures UniqueKinds(ApplyAll([], updates))
    ensures updates != [] ==>
      var before, u := AsMap(ApplyAll([], updates[..|updates| - 1])), updates[|updates| - 1];
      AsMap(ApplyAll([], updates)) == before[u.kind := Fresh(Find(before, u.kind), u)]
  {
    if updates != [] {
      var earlier, u := updates[..|updates| - 1], updates[|updates| - 1];
      HistoryIsMap(earlier);
      var before, after := ApplyAll([], earlier), ApplyAll([], updates);
      ApplyKinds(before, u);
      forall kind
        ensures Find(AsMap(after), kind) == Find(AsMap(before)[u.kind := Fresh(Find(AsMap(before), u.kind), u)], kind)
      {
        ApplyLookup(before, u, kind);
        LookupIsMap(before, kind);
        LookupIsMap(after, kind);
      }
      MapsAgree(AsMap(after), AsMap(before)[u.kind := Fresh(Find(AsMap(before), u.kind), u)]);
    }
  }

  lemma MapsAgree(m: map<Kind, Condition>, n: map<Kind, Condition>)
    requires forall kind :: Find(m, kind) == Find(n, kind)
    ensures m == n
  {
    assert forall kind :: kind in m <==> Find(m, kind).Some?;
    assert forall kind :: kind in n <==> Find(n, kind).Some?;
    assert forall kind :: kind in m ==> Find(m, kind).value == m[kind] && Find(n, kind).value == n[kind];
  }

  // ----- transition times -----

  /** The status last written for `kind`, read off the history alone. */
  function LastStatus(updates: seq<Update>, kind: Kind): Option<ConditionStatus> {
    if updates == [] then None
    else
      var u := updates[|updates| - 1];
      if u.kind == kind then Some(u.status) else LastStatus(updates[..|updates| - 1], kind)
  }

  predicate Flips(updates: seq<Update>, k: nat, kind: Kind)
    requires k < |updates|
  {
    updates[k].kind == kind && LastStatus(updates[..k], kind) != Some(updates[k].status)
  }

  /** `k` is the last update at which the status of `kind` changed (or was first set). */
  ghost predicate IsLastFlip(updates: seq<Update>, k: nat, kind: Kind) {
    k < |updates| && Flips(updates, k, kind) && forall j :: k < j < |updates| ==> !Flips(updates, j, kind)
  }

  /** The condition of `kind` shows the last status written, dated by update `k`, the last flip. */
  ghost predicate Tracks(updates: seq<Update>, kind: Kind, k: nat) {
    var shown := Lookup(ApplyAll([], updates), kind);
    && shown.Some? && Some(shown.value.status) == LastStatus(updates, kind)
    && IsLastFlip(updates, k, kind) && shown.value.since == updates[k].now
  }

  lemma FlipsEarlier(updates: seq<Update>, n: nat, kind: Kind)
    requires n <= |updates|
    ensures forall j: nat :: j < n ==> Flips(updates[..n], j, kind) == Flips(updates, j, kind)
  {
    forall j: nat | j < n
      ensures Flips(updates[..n], j, kind) == Flips(updates, j, kind)
    {
      assert updates[..n][..j] == updates[..j];
    }
  }

  lemma TracksOnward(updates: seq<Update>, kind: Kind, k: nat)
    requires updates != [] && Tracks(updates[..|updates| - 1], kind, k)
    ensures Tracks(updates, kind, if Flips(updates, |updates| - 1, kind) then |updates| - 1 else k)
  {
    var n := |updates| - 1;
    ApplyLookup(ApplyAll([], updates[..n]), updates[n], kind);
    FlipsEarlier(updates, n, kind);
  }

  lemma TracksFirst(updates: seq<Update>, kind: Kind)
    requires updates != [] && updates[|updates| - 1].kind == kind
    requires forall i :: 0 <= i < |updates| - 1 ==> updates[i].kind != kind
    ensures Tracks(updates, kind, |updates| - 1)
  {
    var n := |updates| - 1;
    NeverSet(updates[..n], kind);
    ApplyLookup(ApplyAll([], updates[..n]), updates[n], kind);
  }

  /** After any history that sets `kind`, its transition time is that of the last flip. */
  lemma {:induction false} SinceIsLastFlip(updates: seq<Update>, kind: Kind)
    requires exists i :: 0 <= i < |updates| && updates[i].kind == kind
    ensures exists k: nat :: Tracks(updates, kind, k)
    decreases |updates|
  {
    var n := |updates| - 1;
    if exists i :: 0 <= i < n && updates[i].kind == kind {
      var i :| 0 <= i < n && updates[i].kind == kind;
      assert updates[..n][i].kind == kind;
      SinceIsLastFlip(updates[..n], kind);
      var k: nat :| Tracks(updates[..n], kind, k);
      TracksOnward(updates, kind, k);
    } else {
      TracksFirst(updates, kind);
    }
  }

  lemma {:induction false} NeverSet(updates: seq<Update>, kind: Kind)
    requires forall i :: 0 <= i < |updates| ==> updates[i].kind != kind
    ensures Lookup(ApplyAll([], updates), kind).None? && LastStatus(updates, kind).None?
  {
    if updates != [] {
      NeverSet(updates[..|updates| - 1], kind);
      ApplyLookup(ApplyAll([], updates[..|updates| - 1]), updates[|updates| - 1], kind);
    }
  }

  /** Writing what is already there changes nothing, transition time included. */
  lemma {:induction false} ApplyNoOp(conditions: seq<Condition>, u: Update)
    requires Lookup(conditions, u.kind).Some?
    requires var c := Lookup(conditions, u.kind).value;
             c.status == u.status && c.reason == u.reason && c.message == Truncate(u.message, MESSAGE_LIMIT)
             && c.generation == u.generation
    ensures Apply(conditions, u) == conditions
  {
    if conditions[0].kind != u.kind {
      ApplyNoOp(conditions[1..], u);
    }
  }

  /** After any history no message is longer than 1024 bytes; the one shown is the last one written, cut short with
      three dots where it is longer. */
  lemma {:induction false} MessageShown(updates: seq<Update>)
    ensures forall c :: c in ApplyAll([], updates) ==> |c.message| <= 1024
    ensures updates != [] ==>
              var u := updates[|updates| - 1];
              var shown := Lookup(ApplyAll([], updates), u.kind);
              shown.Some? && shown.value.message == if |u.message| <= 1024 then u.message else u.message[..1021] + "..."
  {
    if updates != [] {
      var earlier, u := updates[..|updates| - 1], updates[|updates| - 1];
      MessageShown(earlier);
      ApplyLookup(ApplyAll([], earlier), u, u.kind);
      MessagesBounded(ApplyAll([], earlier), u);
    }
  }

  lemma {:induction false} MessagesBounded(conditions: seq<Condition>, u: Update)
    requires forall c :: c in conditions ==> |c.message| <= 1024
    ensures forall c :: c in Apply(conditions, u) ==> |c.message| <= 1024
  {
    if conditions != [] && conditions[0].kind != u.kind {
      MessagesBounded(conditions[1..], u);
    }
  }
}
