/** The world outside the cluster: the zrok controller's shares and names, and the agent's share table. Every call
    can be made to fail; `log` records what was asked of it, and when a resource's reclaim annotation changed. */
module Zrok {
  import opened Options
  import opened Shares
  import opened Inventory

  datatype NameKey = NameKey(namespace: string, name: string)

  /** Error text is replaced by what the operator reads out of it. */
  datatype Reply = Ok | Unauthorized | Attached(token: string) | Failed

  /** What goes wrong with a call that the world would otherwise answer. */
  datatype Fault = NoFault | Denied | Conflict(token: string) | Broken

  datatype Event =
    | CreatedName(key: NameKey)
    | ReservedIt(key: NameKey)
    | DeletedName(key: NameKey, reply: Reply)
    | Released(token: string)
    | Unshared(token: string, reply: Reply)
    | Shared(token: string)
    | RecordedReclaim(name: string)
    | ForgotReclaim(name: string)

  /** `names` maps the account's names to whether they are reserved; `taken` holds names of other accounts.
      `owner` remembers which resource last created a share under each token. */
  datatype Net = Net(
    remote: seq<RemoteShare>,
    agent: seq<ShareDetail>,
    names: map<NameKey, bool>,
    taken: set<NameKey>,
    owner: map<string, Id>,
    log: seq<Event>)

  /** The world after a call, and what the caller was told. */
  datatype Answer = Answer(net: Net, reply: Reply)

  function Injected(fault: Fault): Reply {
    match fault
    case NoFault => Ok
    case Denied => Unauthorized
    case Conflict(token) => Attached(token)
    case Broken => Failed
  }

  function WithoutRemote(shares: seq<RemoteShare>, token: string): (r: seq<RemoteShare>)
    ensures forall s :: s in r <==> s in shares && s.token != token
  {
    if shares == [] then []
    else if shares[0].token == token then WithoutRemote(shares[1..], token)
    else [shares[0]] + WithoutRemote(shares[1..], token)
  }

  function WithoutAgent(shares: seq<ShareDetail>, token: string): (r: seq<ShareDetail>)
    ensures forall s :: s in r <==> s in shares && s.token != token
  {
    if shares == [] then []
    else if shares[0].token == token then WithoutAgent(shares[1..], token)
    else [shares[0]] + WithoutAgent(shares[1..], token)
  }

  // ----- names -----

  /** An existing name answers 409, which the client turns into success. */
  function CreateShareName(net: Net, key: NameKey, fault: Fault): Answer {
    var logged := net.(log := net.log + [CreatedName(key)]);
    if fault == Denied || fault == Broken then Answer(logged, Injected(fault))
    else if fault.Conflict? || key in net.taken || key in net.names then Answer(logged, Ok)
    else Answer(logged.(names := net.names[key := false]), Ok)
  }

  function UpdateShareName(net: Net, key: NameKey, fault: Fault): Answer {
    var logged := net.(log := net.log + [ReservedIt(key)]);
    if fault != NoFault then Answer(logged, Injected(fault))
    else if key in net.taken then Answer(logged, Unauthorized)
    else if key in net.names then Answer(logged.(names := net.names[key := true]), Ok)
    else Answer(logged, Failed)
  }

  /** A name that some share is served under cannot be deleted; a missing name (404) counts as deleted. */
  function DeleteReply(net: Net, key: NameKey, fault: Fault): Reply {
    if fault != NoFault then Injected(fault)
    else if key in net.taken then Unauthorized
    else if key in net.names && RemoteByName(net.remote, key.name).Some?
    then Attached(RemoteByName(net.remote, key.name).value.token)
    else Ok
  }

  function DeleteShareName(net: Net, key: NameKey, fault: Fault): Answer {
    var reply := DeleteReply(net, key, fault);
    var logged := net.(log := net.log + [DeletedName(key, reply)]);
    Answer(if reply == Ok then logged.(names := net.names - {key}) else logged, reply)
  }

  // ----- shares -----

  /** The agent stops serving the share. */
  function ReleaseShare(net: Net, token: string, answers: bool): Net {
    var logged := net.(log := net.log + [Released(token)]);
    if answers then logged.(agent := WithoutAgent(net.agent, token)) else logged
  }

  /** The controller forgets the share, and with it goes whatever the agent was serving. A 404 counts as done. */
  function Unshare(net: Net, token: string, fault: Fault): Answer {
    if token == "" then Answer(net, Ok)
    else
      var logged := net.(log := net.log + [Unshared(token, Injected(fault))]);
      if fault != NoFault then Answer(logged, Injected(fault))
      else Answer(logged.(remote := WithoutRemote(net.remote, token), agent := WithoutAgent(net.agent, token)), Ok)
  }

  function CreatedRemote(spec: ShareSpec, mode: ShareMode, token: string, endpoints: seq<string>): RemoteShare {
    RemoteShare(token, spec.upstream, ModeText(mode), DesiredBackendMode(spec), endpoints)
  }

  function CreatedDetail(spec: ShareSpec, mode: ShareMode, token: string, endpoints: seq<string>): ShareDetail {
    ShareDetail(token, ModeText(mode), DesiredBackendMode(spec), spec.closed, endpoints, spec.upstream, "active")
  }

  function AddShare(net: Net, id: Id, spec: ShareSpec, mode: ShareMode, token: string, endpoints: seq<string>): Net {
    net.(remote := net.remote + [CreatedRemote(spec, mode, token, endpoints)],
         agent := net.agent + [CreatedDetail(spec, mode, token, endpoints)],
         owner := net.owner[token := id],
         log := net.log + [Shared(token)])
  }

  /** A public share: refused with 409 while another share is served under the wanted name. */
  function SharePublic(net: Net, id: Id, spec: ShareSpec, fault: Fault, token: string, endpoints: seq<string>): Answer {
    var holder := RemoteByName(net.remote, ReservedName(spec));
    if fault != NoFault then Answer(net, Injected(fault))
    else if holder.Some? then Answer(net, Attached(holder.value.token))
    else Answer(AddShare(net, id, spec, Public, token, endpoints), Ok)
  }

  function VanityOr(spec: ShareSpec, token: string): string {
    if spec.privateShareToken != "" then spec.privateShareToken else token
  }

  /** A private share: refused while its vanity token is in use. It has no frontend endpoints. */
  function SharePrivate(net: Net, id: Id, spec: ShareSpec, fault: Fault, token: string): Answer {
    if fault != NoFault then Answer(net, Injected(fault))
    else if RemoteByToken(net.remote, spec.privateShareToken).Some? then Answer(net, Failed)
    else Answer(AddShare(net, id, spec, ShareMode.Private, VanityOr(spec, token), []), Ok)
  }
}
