/** Every ZrokShare of one environment together with the outside world, and the things that can happen to them. */
module ShareWorld {
  import opened Options
  import opened Inventory
  import opened Shares
  import opened ShareSteps
  import opened Zrok

  datatype World = World(crs: map<Id, ZrokShare>, net: Net)

  /** Some other live resource claims the reserved name of `id`. */
  predicate Rival(crs: map<Id, ZrokShare>, id: Id)
    requires id in crs
  {
    exists o :: o in crs && o != id && Claims(crs[o], ReservedName(crs[id].spec))
  }

  datatype Action =
    | Run(id: Id, plan: Plan)                                        // one reconcile
    | Submit(id: Id, spec: ShareSpec)                                // create a resource
    | Edit(id: Id, spec: ShareSpec)                                  // change its spec
    | Remove(id: Id)                                                 // ask for its deletion
    | Outside(remote: seq<RemoteShare>, agent: seq<ShareDetail>)     // agent restarts, other users of the account

  function Put(crs: map<Id, ZrokShare>, id: Id, c: ZrokShare): map<Id, ZrokShare> {
    if c.deleting && !c.finalizer then crs - {id} else crs[id := c]
  }

  function RunOne(w: World, id: Id, p: Plan): Flow
    requires id in w.crs
  {
    var s := St(w.crs[id], w.net);
    if w.crs[id].deleting then ReconcileDelete(s, Rival(w.crs, id), p) else Reconcile(s, Rival(w.crs, id), p)
  }

  function NewShare(id: Id, spec: ShareSpec): ZrokShare {
    ZrokShare(id, 1, false, false, "", "", spec, ShareStatus(0, "", [], "", Unreserved, []))
  }

  function Step(w: World, a: Action): World {
    match a
    case Run(id, p) =>
      if id !in w.crs then w
      else
        var end := RunOne(w, id, p).s;
        World(Put(w.crs, id, end.cr), end.net)
    case Submit(id, spec) => if id in w.crs then w else w.(crs := w.crs[id := NewShare(id, spec)])
    case Edit(id, spec) =>
      if id !in w.crs then w
      else w.(crs := w.crs[id := w.crs[id].(spec := spec, generation := w.crs[id].generation + 1)])
    case Remove(id) => if id !in w.crs then w else w.(crs := Put(w.crs, id, w.crs[id].(deleting := true)))
    case Outside(remote, agent) => w.(net := w.net.(remote := remote, agent := agent))
  }

  function After(w: World, actions: seq<Action>): World {
    if actions == [] then w else Step(After(w, actions[..|actions| - 1]), actions[|actions| - 1])
  }
}
