/** What one reconcile sees and what it concludes (controller/share_inventory.go, share_apply.go,
    zrokclient/share.go). */
module Inventory {
  import opened Options
  import opened Strings
  import opened FrontendNames
  import opened Targets
  import opened Shares

  /** A share as the zrok controller lists it. */
  datatype RemoteShare = RemoteShare(
    token: string, target: string, shareMode: string, backendMode: string, frontendEndpoints: seq<string>)

  /** A share as the in-cluster agent reports it. */
  datatype ShareDetail = ShareDetail(
    token: string, shareMode: string, backendMode: string, closed: bool,
    frontendEndpoints: seq<string>, backendEndpoint: string, status: string)

  /** `listed` is false when the remote list is unknown (the list call failed or there is no environment identity). */
  datatype Inventory = Inventory(listed: bool, remote: seq<RemoteShare>, agent: seq<ShareDetail>)

  predicate AnyMatches(endpoints: seq<string>, name: string) {
    exists i :: 0 <= i < |endpoints| && FrontendEndpointMatchesName(endpoints[i], name)
  }

  method MatchesFrontendName(endpoints: seq<string>, name: string) returns (matches: bool)
    ensures matches == AnyMatches(endpoints, name)
  {
    for i := 0 to |endpoints|
      invariant forall k :: 0 <= k < i ==> !FrontendEndpointMatchesName(endpoints[k], name)
    {
      if FrontendEndpointMatchesName(endpoints[i], name) {
        return true;
      }
    }
    matches := false;
  }

  // ----- lookups: the first entry that fits -----

  function RemoteByToken(shares: seq<RemoteShare>, token: string): (r: Option<RemoteShare>)
    ensures r.Some? ==> r.value in shares && r.value.token == token && token != ""
    ensures r.None? ==> token == "" || forall s :: s in shares ==> s.token != token
  {
    if token == "" || shares == [] then None
    else if shares[0].token == token then Some(shares[0])
    else RemoteByToken(shares[1..], token)
  }

  function RemoteByName(shares: seq<RemoteShare>, name: string): (r: Option<RemoteShare>)
    ensures r.Some? ==> r.value in shares && AnyMatches(r.value.frontendEndpoints, name) && name != ""
    ensures r.None? ==> name == "" || forall s :: s in shares ==> !AnyMatches(s.frontendEndpoints, name)
  {
    if name == "" || shares == [] then None
    else if AnyMatches(shares[0].frontendEndpoints, name) then Some(shares[0])
    else RemoteByName(shares[1..], name)
  }

  predicate IsAgentShareActive(d: ShareDetail) {
    d.status == "" || d.status == "active"
  }

  function AgentByToken(shares: seq<ShareDetail>, token: string): (r: Option<ShareDetail>)
    ensures r.Some? ==> r.value in shares && r.value.token == token && token != ""
    ensures r.None? ==> token == "" || forall s :: s in shares ==> s.token != token
  {
    if token == "" || shares == [] then None
    else if shares[0].token == token then Some(shares[0])
    else AgentByToken(shares[1..], token)
  }

  function AgentByName(shares: seq<ShareDetail>, name: string): (r: Option<ShareDetail>)
    ensures r.Some? ==> r.value in shares && IsAgentShareActive(r.value) && AnyMatches(r.value.frontendEndpoints, name)
                        && name != ""
    ensures r.None? ==> name == ""
                        || forall s :: s in shares && IsAgentShareActive(s) ==> !AnyMatches(s.frontendEndpoints, name)
  {
    if name == "" || shares == [] then None
    else if IsAgentShareActive(shares[0]) && AnyMatches(shares[0].frontendEndpoints, name) then Some(shares[0])
    else AgentByName(shares[1..], name)
  }

  method FindByToken(shares: seq<RemoteShare>, token: string) returns (found: Option<RemoteShare>)
    ensures found == RemoteByToken(shares, token)
  {
    if token == "" {
      return None;
    }
    for i := 0 to |shares|
      invariant RemoteByToken(shares[i..], token) == RemoteByToken(shares, token)
    {
      if shares[i].token == token {
        return Some(shares[i]);
      }
    }
    found := None;
  }

  method FindByFrontendName(shares: seq<RemoteShare>, name: string) returns (found: Option<RemoteShare>)
    ensures found == RemoteByName(shares, name)
  {
    if name == "" {
      return None;
    }
    for i := 0 to |shares|
      invariant RemoteByName(shares[i..], name) == RemoteByName(shares, name)
    {
      var matches := MatchesFrontendName(shares[i].frontendEndpoints, name);
      if matches {
        return Some(shares[i]);
      }
    }
    found := None;
  }

  method FindAgentByToken(shares: seq<ShareDetail>, token: string) returns (found: Option<ShareDetail>)
    ensures found == AgentByToken(shares, token)
  {
    if token == "" {
      return None;
    }
    for i := 0 to |shares|
      invariant AgentByToken(shares[i..], token) == AgentByToken(shares, token)
    {
      if shares[i].token == token {
        return Some(shares[i]);
      }
    }
    found := None;
  }

  method FindAgentByName(shares: seq<ShareDetail>, name: string) returns (found: Option<ShareDetail>)
    ensures found == AgentByName(shares, name)
  {
    if name == "" {
      return None;
    }
    for i := 0 to |shares|
      invariant AgentByName(shares[i..], name) == AgentByName(shares, name)
    {
      if !IsAgentShareActive(shares[i]) {
        continue;
      }
      var matches := MatchesFrontendName(shares[i].frontendEndpoints, name);
      if matches {
        return Some(shares[i]);
      }
    }
    found := None;
  }

  // ----- classification -----

  datatype Classified = Classified(remote: Option<RemoteShare>, agent: Option<ShareDetail>, foreignName: bool)

  function OrElse<T>(first: Option<T>, second: Option<T>): Option<T> {
    if first.Some? then first else second
  }

  /** The remote share this resource maps to: its status token, else its reserved name, else its vanity token. */
  function MappedRemote(share: ZrokShare, inv: Inventory): Option<RemoteShare> {
    OrElse(RemoteByToken(inv.remote, share.status.shareToken),
           OrElse(RemoteByName(inv.remote, ReservedName(share.spec)),
                  RemoteByToken(inv.remote, share.spec.privateShareToken)))
  }

  function MappedAgent(share: ZrokShare, inv: Inventory): Option<ShareDetail> {
    OrElse(AgentByToken(inv.agent, share.status.shareToken), AgentByName(inv.agent, ReservedName(share.spec)))
  }

  /** The reserved name is held by a share with another target that is not the one in status. */
  predicate HeldByForeigner(share: ZrokShare, inv: Inventory) {
    var holder := RemoteByName(inv.remote, ReservedName(share.spec));
    && holder.Some?
    && !TargetsEqual(holder.value.target, share.spec.upstream)
    && share.status.shareToken != holder.value.token
  }

  function Classify(share: ZrokShare, inv: Inventory): Classified {
    if HeldByForeigner(share, inv)
    then Classified(RemoteByName(inv.remote, ReservedName(share.spec)), MappedAgent(share, inv), true)
    else Classified(MappedRemote(share, inv), MappedAgent(share, inv), false)
  }

  method ClassifyShare(share: ZrokShare, inv: Inventory) returns (cls: Classified)
    ensures cls == Classify(share, inv)
  {
    var name := ReservedName(share.spec);
    cls := Classified(None, None, false);
    if share.status.shareToken != "" {
      var remote := FindByToken(inv.remote, share.status.shareToken);
      var agent := FindAgentByToken(inv.agent, share.status.shareToken);
      cls := cls.(remote := remote, agent := agent);
    }
    if cls.remote.None? && name != "" {
      var remote := FindByFrontendName(inv.remote, name);
      cls := cls.(remote := remote);
    }
    if cls.agent.None? && name != "" {
      var agent := FindAgentByName(inv.agent, name);
      cls := cls.(agent := agent);
    }
    if cls.remote.None? && share.spec.privateShareToken != "" {
      var remote := FindByToken(inv.remote, share.spec.privateShareToken);
      cls := cls.(remote := remote);
    }
    if name == "" {
      return;
    }
    var holder := FindByFrontendName(inv.remote, name);
    if holder.None? || TargetsEqual(holder.value.target, share.spec.upstream) {
      return;
    }
    if share.status.shareToken == holder.value.token {
      return;
    }
    cls := cls.(foreignName := true, remote := holder);
  }

  predicate IsOurShareToken(share: ZrokShare, token: string, inv: Inventory) {
    && token != ""
    && (share.status.shareToken == token
        || (if RemoteByToken(inv.remote, token).Some?
            then TargetsEqual(RemoteByToken(inv.remote, token).value.target, share.spec.upstream)
            else AgentByToken(inv.agent, token).Some?))
  }

  predicate Claims(share: ZrokShare, name: string) {
    name != "" && !share.deleting && ReservedName(share.spec) == name
  }

  /** Another resource, not being deleted, that claims the same reserved name. */
  method OtherShareWithFrontendName(self: ZrokShare, all: seq<ZrokShare>) returns (other: Option<ZrokShare>)
    ensures other.Some? ==>
              other.value in all && other.value.id != self.id && Claims(other.value, ReservedName(self.spec))
    ensures other.None? ==> forall o :: o in all && o.id != self.id ==> !Claims(o, ReservedName(self.spec))
  {
    var name := ReservedName(self.spec);
    if name == "" {
      return None;
    }
    for i := 0 to |all|
      invariant forall k :: 0 <= k < i && all[k].id != self.id ==> !Claims(all[k], name)
    {
      if all[i].id == self.id || all[i].deleting {
        continue;
      }
      if ReservedName(all[i].spec) == name {
        return Some(all[i]);
      }
    }
    other := None;
  }

  // ----- adoption -----

  predicate AgentTargetOK(d: ShareDetail, desired: string) {
    desired != "" && d.backendEndpoint != "" && TargetsEqual(d.backendEndpoint, desired)
  }

  predicate EqualFold(a: string, b: string) {
    ToLower(a) == ToLower(b)
  }

  predicate AgentShareMatchesSpec(share: ZrokShare, d: ShareDetail) {
    && IsAgentShareActive(d) && AgentTargetOK(d, share.spec.upstream)
    && (d.shareMode != "" ==> EqualFold(d.shareMode, ModeText(DesiredShareMode(share.spec))))
    && (d.backendMode != "" ==> EqualFold(d.backendMode, DesiredBackendMode(share.spec)))
    && d.closed == share.spec.closed
    && (share.spec.privateShareToken != "" ==> d.token == share.spec.privateShareToken)
    && (if ReservedName(share.spec) == "" then share.status.reservation != Reserved
        else AnyMatches(d.frontendEndpoints, ReservedName(share.spec)))
  }

  predicate ShareDigestDrifted(share: ZrokShare, digest: string) {
    share.appliedDigest != "" && share.appliedDigest != digest
  }

  function AdoptableAgentShare(share: ZrokShare, cls: Classified, digest: string): Option<ShareDetail> {
    if cls.agent.Some? && AgentShareMatchesSpec(share, cls.agent.value) && !ShareDigestDrifted(share, digest)
    then cls.agent else None
  }

  /** The name the share is live under, from the agent, else the remote share, else the URL in status. */
  function LiveFrontendName(share: ZrokShare, cls: Classified): string {
    var fromAgent := if cls.agent.Some? then FrontendNameFromEndpoints(cls.agent.value.frontendEndpoints) else "";
    var fromRemote := if cls.remote.Some? then FrontendNameFromEndpoints(cls.remote.value.frontendEndpoints) else "";
    if fromAgent != "" then fromAgent
    else if fromRemote != "" then fromRemote
    else FrontendNameFromEndpoint(share.status.assignedURL)
  }

  /** The share Reconcile takes down before it creates a new one, if any. */
  function ReleaseTarget(share: ZrokShare, cls: Classified): Option<string> {
    if cls.agent.Some? then Some(cls.agent.value.token)
    else if cls.remote.Some? && TargetsEqual(cls.remote.value.target, share.spec.upstream)
    then Some(cls.remote.value.token)
    else if cls.remote.Some? && share.status.shareToken == cls.remote.value.token then Some(cls.remote.value.token)
    else None
  }
}
