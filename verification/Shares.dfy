/** The ZrokShare resource as the share controller sees it (api/v1alpha1/zrokshare_types.go). */
module Shares {
  import opened Options
  import opened Conditions

  datatype NameSelection = NameSelection(namespace: string, name: string)

  datatype OAuth = OAuth(provider: string, emailDomains: seq<string>, refreshInterval: string)

  /** Enumerations of the API; an unset one takes its default. */
  datatype ShareMode = DefaultMode | Public | Private | OtherMode(text: string)

  datatype ReclaimPolicy = DefaultPolicy | Delete | Retain

  datatype Reservation = Unreserved | Ephemeral | Reserved | Private

  datatype ShareSpec = ShareSpec(
    environment: string,
    shareMode: ShareMode,
    backendMode: string,
    upstream: string,
    nameSelection: Option<NameSelection>,
    privateShareToken: string,
    insecure: bool,
    closed: bool,
    accessGrants: seq<string>,
    basicAuthSecret: Option<string>,
    oauth: Option<OAuth>,
    reclaimPolicy: ReclaimPolicy)

  datatype ShareStatus = ShareStatus(
    observedGeneration: int,
    assignedURL: string,
    frontendEndpoints: seq<string>,
    shareToken: string,
    reservation: Reservation,
    conditions: seq<Condition>)

  datatype Id = Id(namespace: string, name: string)

  /** An annotation that is absent reads as "". */
  datatype ZrokShare = ZrokShare(
    id: Id,
    generation: int,
    deleting: bool,
    finalizer: bool,
    appliedDigest: string,
    reclaimName: string,
    spec: ShareSpec,
    status: ShareStatus)

  const SOCKS := "socks"
  const PROXY := "proxy"
  const DEFAULT_NAMESPACE_TOKEN := "public"

  function DesiredShareMode(spec: ShareSpec): ShareMode {
    if spec.shareMode == DefaultMode then Public else spec.shareMode
  }

  function ModeText(mode: ShareMode): string {
    match mode
    case DefaultMode => ""
    case Public => "public"
    case Private => "private"
    case OtherMode(text) => text
  }

  function DesiredBackendMode(spec: ShareSpec): string {
    if spec.backendMode == "" then PROXY else spec.backendMode
  }

  function ReservedName(spec: ShareSpec): string {
    if spec.nameSelection.None? then "" else spec.nameSelection.value.name
  }

  function NamespaceToken(spec: ShareSpec): string {
    if spec.nameSelection.None? then ""
    else if spec.nameSelection.value.namespace == "" then DEFAULT_NAMESPACE_TOKEN
    else spec.nameSelection.value.namespace
  }
}
