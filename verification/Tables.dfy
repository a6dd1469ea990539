/** The SQLite tables of the control plane, as values (app/migrations.py gives the columns). */
module Tables {
  import opened Base
  import opened VpnConfig

  /* ---------- settings ---------- */

  datatype Proto = VLESS | HYSTERIA | AMNEZIA
  datatype SecretName =
    | RealityPrivate | RealityPublic | RealityShortId
    | HysteriaPassword | HysteriaObfs
    | AmneziaPrivate | AmneziaPublic
  datatype TunableName =
    | RealityTarget | RealityServerNames | RealityServerName | RealityFingerprint | RealitySpiderX
    | NetworkPrefix | Dns
  datatype ObfuscationName = JC | JMIN | JMAX | S1 | S2 | H1 | H2 | H3 | H4
  datatype SprintField = LOGIN | APIKEY | BOXNAME | SERVICE | DISTRIBUTIVE
  datatype SshField = HOST | USER | PORT | KEYPATH | PASSWORD

  /** A settings key: the ones the model reads by name, and every other one by its text. */
  datatype Key =
    | CurrentIp
    | ConfigUpdatedAt
    | HealthStatus
    | Enabled(p: Proto)
    | Port(p: Proto)
    | Secret(s: SecretName)
    | Tunable(t: TunableName)
    | Obf(o: ObfuscationName)
    | Provider
    | Sprint(f: SprintField)
    | Ssh(h: SshField)
    | Other(name: string)

  function ProtoName(p: Proto): string {
    match p
    case VLESS => "vless"
    case HYSTERIA => "hysteria"
    case AMNEZIA => "amnezia"
  }

  function KeyName(k: Key): string {
    match k
    case CurrentIp => "current_ip"
    case ConfigUpdatedAt => "vpn.config_updated_at"
    case HealthStatus => "last_healthcheck_status"
    case Enabled(p) => "config." + ProtoName(p) + "_enabled"
    case Port(p) => "config." + ProtoName(p) + "_port"
    case Secret(RealityPrivate) => "vless.reality_private_key"
    case Secret(RealityPublic) => "vless.reality_public_key"
    case Secret(RealityShortId) => "vless.reality_short_id"
    case Secret(HysteriaPassword) => "hysteria.password"
    case Secret(HysteriaObfs) => "hysteria.obfs_password"
    case Secret(AmneziaPrivate) => "amnezia.server_private_key"
    case Secret(AmneziaPublic) => "amnezia.server_public_key"
    case Tunable(RealityTarget) => "config.vless_reality_target"
    case Tunable(RealityServerNames) => "config.vless_reality_server_names"
    case Tunable(RealityServerName) => "config.vless_reality_server_name"
    case Tunable(RealityFingerprint) => "config.vless_reality_fingerprint"
    case Tunable(RealitySpiderX) => "config.vless_reality_spider_x"
    case Tunable(NetworkPrefix) => "config.amnezia_network_prefix"
    case Tunable(Dns) => "config.amnezia_dns"
    case Obf(JC) => "amnezia.jc"
    case Obf(JMIN) => "amnezia.jmin"
    case Obf(JMAX) => "amnezia.jmax"
    case Obf(S1) => "amnezia.s1"
    case Obf(S2) => "amnezia.s2"
    case Obf(H1) => "amnezia.h1"
    case Obf(H2) => "amnezia.h2"
    case Obf(H3) => "amnezia.h3"
    case Obf(H4) => "amnezia.h4"
    case Provider => "config.vps_provider"
    case Sprint(LOGIN) => "config.sprintbox_login"
    case Sprint(APIKEY) => "config.sprintbox_key"
    case Sprint(BOXNAME) => "config.sprintbox_box_name"
    case Sprint(SERVICE) => "config.sprintbox_service"
    case Sprint(DISTRIBUTIVE) => "config.sprintbox_distributive"
    case Ssh(HOST) => "config.eu_ssh_host"
    case Ssh(USER) => "config.eu_ssh_user"
    case Ssh(PORT) => "config.eu_ssh_port"
    case Ssh(KEYPATH) => "config.eu_ssh_key_path"
    case Ssh(PASSWORD) => "config.eu_ssh_password"
    case Other(name) => name
  }

  type Settings = map<Key, string>

  function Get(s: Settings, k: Key): string {
    if k in s then s[k] else ""
  }

  /* ---------- clients, routers and their auxiliary peers ---------- */

  datatype ClientRow = ClientRow(
    name: string, token: string, enabled: bool, vlessUuid: string, hysteriaPassword: string,
    awgPrivate: string, awgPublic: string, awgPreshared: string, awgIpv4: Option<nat>, createdAt: string,
    deletedRevision: Option<nat>)
  {
    predicate Live() {
      deletedRevision.None?
    }
  }

  datatype RouterRow = RouterRow(clientId: nat, title: string, enabled: bool)

  datatype PeerRow = PeerRow(privateKey: string, publicKey: string, presharedKey: string, ipv4: nat)

  /* ---------- snapshots ---------- */

  datatype Lifecycle = PREPARED | APPLIED | FAILED

  datatype Snapshot = Snapshot(payload: Payload, sha: Digest<Payload>, lifecycle: Lifecycle, appliedAt: Option<string>)

  /** Everything the captured configuration is made from, and the snapshots made from it. */
  datatype Cfg = Cfg(
    settings: Settings,
    clients: map<nat, ClientRow>,
    nextClient: nat,
    routers: map<string, RouterRow>,
    peers: map<string, PeerRow>,
    desired: nat,
    applied: Option<nat>,
    snapshots: map<nat, Snapshot>)

  /* ---------- operations and the lease ---------- */

  datatype Status = PENDING | RUNNING | DONE | FAILURE | TIMED_OUT | AMBIGUOUS {
    predicate Active() {
      PENDING? || RUNNING?
    }
  }

  datatype IpAction =
    | NOT_STARTED
    | PURCHASE_SENDING | PURCHASE_SENT | PURCHASE_CONFIRMED
    | MAKE_MAIN_SENDING | MAIN_CHANGED | MAIN_CONFIRMED
    | APPLYING | APPLY_FAILED | APPLY_DONE
    | ROLLING_BACK | ROLLED_BACK
    | PUBLISHED
    | CLEANUP_SENDING | CLEANUP_CONFIRMED | CLEANUP_AMBIGUOUS | CLEANUP_REJECTED
    | CLEANUP_QUEUED | CLEANUP_RUNNING
    | PUBLISHED_AWAITING_AWG_CHECK
    | WAITING_SSH | SSH_WAIT_QUEUED | SSH_UNREACHABLE
    | RETRY_REQUESTED | CANCELLED | AWAITING_USER_REVIEW
    | FINISHED | FAILED_ACTION | AMBIGUOUS_ACTION | RECONCILED

  datatype Purchase = P_NOT_STARTED | P_SENDING | P_SENT | P_CONFIRMED | P_REJECTED | P_AMBIGUOUS
  datatype MakeMain = M_NOT_STARTED | M_SENDING | M_SENT | M_CONFIRMED | M_AMBIGUOUS
  datatype Apply = A_NOT_STARTED | A_RUNNING | A_APPLIED | A_FAILED | A_AMBIGUOUS
  datatype Rollback = NO_ROLLBACK | R_SENDING | RESTORED_OLD_MAIN | R_AMBIGUOUS

  /** The provider and account an operation was bound to when it was prepared. */
  datatype Binding =
    | AezaBinding
    | SprintBinding(login: string, credential: Digest<string>, boxName: string, service: string, distributive: string)

  datatype Deletion = D_SENDING | D_SENT | D_DELETED | D_ABSENT | D_AMBIGUOUS | D_MANUAL

  /** The SprintBOX context row of an operation. */
  datatype Context = Context(retained: map<string, string>, marker: string, keyPath: string,
                             results: map<string, Deletion>)

  const NO_CONTEXT := Context(map[], "", "", map[])

  datatype IpOp = IpOp(
    status: Status, action: IpAction, purchase: Purchase, makeMain: MakeMain, apply: Apply, rollback: Rollback,
    revision: nat, published: Option<nat>, publishedAt: Option<string>,
    oldIp: string, newIp: string, oldIpId: string, newIpId: string,
    bound: Binding, ctx: Context)

  datatype InstallOp = InstallOp(status: Status, revision: nat, targetHost: string)

  datatype ServerKind = STATUS_REFRESH | REBOOT
  datatype ServerAction = S_NOT_STARTED | S_SENDING | S_SENT | S_AMBIGUOUS
  datatype ServerOp = ServerOp(kind: ServerKind, status: Status, action: ServerAction)

  datatype OwnerType = INSTALL | IP_CHANGE | SERVER
  datatype Owner = Owner(kind: OwnerType, id: nat)
  datatype Lease = Lease(owner: Owner, expiresAt: int)

  datatype Ops = Ops(
    ip: map<nat, IpOp>, nextIp: nat,
    install: map<nat, InstallOp>, nextInstall: nat,
    server: map<nat, ServerOp>, nextServer: nat,
    lease: Option<Lease>)

  /* ---------- router credentials and apply results ---------- */

  datatype CredentialRow = CredentialRow(routerId: string, enabled: bool)

  datatype ResultRow = ResultRow(id: nat, body: BodyDigest, revision: nat, sha: Digest<Payload>, etag: Etag)

  datatype ResultBody = ResultBody(revision: nat, sha: Digest<Payload>, outcome: string, profile: string, details: string)

  /** The SHA-256 of a canonical apply-result body. */
  datatype BodyDigest = BodyDigest(of: ResultBody)

  datatype Etag = Etag(text: string) | EtagOf(response: Digest<RouterResponse>)

  /** The schema 3 and schema 4 router responses (app/router_api.py:171-331), without the legacy import text. */
  datatype RouterResponse = RouterResponse(
    schemaVersion: int, routerId: string, revision: nat, sha: Digest<Payload>,
    appliedAt: Option<string>, publishedAt: Option<string>, clientId: nat, clientName: string, endpoint: string,
    vless: Option<VlessOutbound>, hysteria: Option<HysteriaOutbound>,
    amnezia: Option<AwgProfile>, auxiliary: Option<AwgProfile>)

  datatype VlessOutbound = VlessOutbound(
    server: string, port: int, uuid: string, serverName: string, fingerprint: string, publicKey: string,
    shortId: string)

  datatype HysteriaOutbound = HysteriaOutbound(
    server: string, port: int, password: string, serverName: string, obfs: Option<string>)

  datatype AwgProfile = AwgProfile(
    privateKey: string, presharedKey: string, address: Option<nat>, dns: string,
    serverPublicKey: string, endpoint: string, port: int, obfuscation: Obfuscation)

  datatype Api = Api(
    credentials: map<string, CredentialRow>,
    results: map<(string, string), ResultRow>,
    nextResult: nat)

  datatype Db = Db(cfg: Cfg, ops: Ops, api: Api)

  /** The migrated, empty database. */
  const EMPTY_DB := Db(
    Cfg(map[], map[], 1, map[], map[], 0, None, map[]),
    Ops(map[], 1, map[], 1, map[], 1, None),
    Api(map[], map[], 1))
}
