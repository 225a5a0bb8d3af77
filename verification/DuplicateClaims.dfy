/** While two live resources claim one reserved name, neither touches anything outside the cluster. */
module DuplicateClaims {
  import opened Digest
  import opened Inventory
  import opened ShareFrames
  import opened Shares
  import opened ShareSteps
  import opened ShareWorld
  import opened Zrok

  predicate BothClaim(w: World, a: Id, b: Id, name: string) {
    a != b && a in w.crs && b in w.crs && Claims(w.crs[a], name) && Claims(w.crs[b], name)
  }

  /** The actions are reconciles of `a` and `b`, each with any outcome of its reads and calls. */
  predicate OnlyReconciles(actions: seq<Action>, a: Id, b: Id) {
    forall i :: 0 <= i < |actions| ==> actions[i].Run? && (actions[i].id == a || actions[i].id == b)
  }

  lemma RivalReconcile(s: St, p: Plan)
    requires ReservedName(s.cr.spec) != "" && !s.cr.deleting
    ensures var r := Reconcile(s, true, p).s;
            r.net == s.net && SameResource(s.cr, r.cr) && SameBinding(s.cr, r.cr)
  {
    hide Admit, Converge, ApplyDigest;
    AdmitFrame(s, true, p);
  }

  lemma FrozenStep(w: World, a: Id, b: Id, name: string, p: Plan)
    requires BothClaim(w, a, b, name)
    ensures var t := Step(w, Run(a, p));
            t.net == w.net && BothClaim(t, a, b, name) && t.crs[b] == w.crs[b] && SameBinding(w.crs[a], t.crs[a])
  {
    hide Reconcile;
    var s := St(w.crs[a], w.net);
    assert Rival(w.crs, a);
    RivalReconcile(s, p);
  }

  /** Through any number of reconciles with any failures, not one call leaves the cluster (the log of calls included),
      and both bindings stay what they were. */
  lemma {:induction false} Frozen(w: World, actions: seq<Action>, a: Id, b: Id, name: string)
    requires BothClaim(w, a, b, name) && OnlyReconciles(actions, a, b)
    ensures var t := After(w, actions);
            && t.net == w.net && BothClaim(t, a, b, name)
            && SameBinding(w.crs[a], t.crs[a]) && SameBinding(w.crs[b], t.crs[b])
  {
    hide Step;
    if actions != [] {
      var earlier, last := actions[..|actions| - 1], actions[|actions| - 1];
      Frozen(w, earlier, a, b, name);
      if last.id == a {
        FrozenStep(After(w, earlier), a, b, name, last.plan);
      } else {
        FrozenStep(After(w, earlier), b, a, name, last.plan);
      }
    }
  }

  /** Deleting an unbound claimant, with the other claimant in sight, leaves the outside world alone. */
  lemma UnboundDeletion(s: St, p: Plan)
    requires s.cr.status.shareToken == "" && ReservedName(s.cr.spec) != "" && p.resourcesListed
    ensures ReconcileDelete(s, true, p).s.net == s.net
  {
    hide LoadInventory, ViewEnv;
  }

  /** The whole story: two claimants, any reconciles, then the deletion of the unbound one. The incumbent's share, its
      agent entry and the name are untouched. */
  lemma IncumbentSurvives(w: World, actions: seq<Action>, a: Id, b: Id, name: string, p: Plan)
    requires BothClaim(w, a, b, name) && OnlyReconciles(actions, a, b)
    requires w.crs[b].status.shareToken == "" && p.resourcesListed
    ensures var t := Step(Step(After(w, actions), Remove(b)), Run(b, p));
            t.net == w.net && a in t.crs && SameBinding(w.crs[a], t.crs[a])
  {
    hide After, ReconcileDelete, Reconcile;
    Frozen(w, actions, a, b, name);
    var frozen := After(w, actions);
    var removed := Step(frozen, Remove(b));
    if b in removed.crs {
      assert Claims(removed.crs[a], ReservedName(removed.crs[b].spec));
      assert Rival(removed.crs, b);
      UnboundDeletion(St(removed.crs[b], removed.net), p);
    }
  }
}
