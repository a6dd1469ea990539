/** Capturing every VPN input from one SQLite snapshot (app/vpn_config.py:114-267). */
module Capture {
  import opened Base
  import opened VpnConfig
  import opened Tables

  /** Process-wide defaults and the string readings the captured values depend on. */
  datatype Env = Env(
    defaultPort: Proto -> int,
    tunable: TunableName -> string,
    obfuscation: ObfuscationName -> int,
    sprint: SprintField -> string,
    provider: string,
    truthy: string -> bool,            // strip().lower() in {"1", "true", "yes", "on"}
    parseInt: string -> Option<int>,   // int(), None for ValueError
    splitNames: string -> seq<string>, // split on commas, strip, drop blanks
    network: string -> Option<nat>)    // ip_network(prefix + ".0/24"): its address, None for ValueError
  {
    /** The two readings of the empty text the code relies on. */
    ghost predicate Ok() {
      !truthy("") && parseInt("").None?
    }
  }

  function Configured(env: Env, s: Settings, t: TunableName): string {
    var v := Get(s, Tunable(t));
    if v != "" then v else env.tunable(t)
  }

  function CaptureProtocol(env: Env, s: Settings, p: Proto): Option<Protocol> {
    var enabled := if Enabled(p) in s then env.truthy(s[Enabled(p)]) else Port(p) !in s || s[Port(p)] != "";
    if Port(p) !in s || s[Port(p)] == "" then Some(Protocol(enabled, env.defaultPort(p)))
    else
      var port := env.parseInt(s[Port(p)]);
      if port.None? then None else Some(Protocol(enabled, port.value))
  }

  function CaptureNumber(env: Env, s: Settings, o: ObfuscationName): Option<int> {
    if Obf(o) in s then env.parseInt(s[Obf(o)]) else Some(env.obfuscation(o))
  }

  function CaptureObfuscation(env: Env, s: Settings): Option<Obfuscation> {
    var jc, jmin, jmax := CaptureNumber(env, s, JC), CaptureNumber(env, s, JMIN), CaptureNumber(env, s, JMAX);
    var s1, s2 := CaptureNumber(env, s, S1), CaptureNumber(env, s, S2);
    var h1, h2 := CaptureNumber(env, s, H1), CaptureNumber(env, s, H2);
    var h3, h4 := CaptureNumber(env, s, H3), CaptureNumber(env, s, H4);
    if jc.None? || jmin.None? || jmax.None? || s1.None? || s2.None? || h1.None? || h2.None? || h3.None? || h4.None?
    then None
    else Some(Obfuscation(jc.value, jmin.value, jmax.value, s1.value, s2.value,
                          h1.value, h2.value, h3.value, h4.value))
  }

  function CaptureVless(env: Env, s: Settings): Option<Vless> {
    var protocol := CaptureProtocol(env, s, VLESS);
    if protocol.None? then None
    else
      Some(Vless(protocol.value, Get(s, Secret(RealityPrivate)), Get(s, Secret(RealityPublic)),
                 Get(s, Secret(RealityShortId)), Configured(env, s, RealityTarget),
                 env.splitNames(Configured(env, s, RealityServerNames)), Configured(env, s, RealityServerName),
                 Configured(env, s, RealityFingerprint), Configured(env, s, RealitySpiderX)))
  }

  function CaptureHysteria(env: Env, s: Settings): Option<Hysteria> {
    var protocol := CaptureProtocol(env, s, HYSTERIA);
    if protocol.None? then None
    else Some(Hysteria(protocol.value, Get(s, Secret(HysteriaPassword)), Get(s, Secret(HysteriaObfs)), "userpass"))
  }

  function CaptureAmnezia(env: Env, s: Settings): Option<Amnezia> {
    var protocol := CaptureProtocol(env, s, AMNEZIA);
    var obfuscation := CaptureObfuscation(env, s);
    if protocol.None? || obfuscation.None? then None
    else
      Some(Amnezia(protocol.value, Get(s, Secret(AmneziaPrivate)), Get(s, Secret(AmneziaPublic)),
                   obfuscation.value, Configured(env, s, NetworkPrefix), Configured(env, s, Dns)))
  }

  function CaptureClient(row: ClientRow): VpnClient {
    VpnClient(row.name, row.token, row.enabled, row.vlessUuid, row.hysteriaPassword,
              row.awgPrivate, row.awgPublic, row.awgPreshared, row.awgIpv4, row.createdAt)
  }

  function CaptureClients(c: Cfg): map<nat, VpnClient> {
    map id | id in c.clients && c.clients[id].Live() :: CaptureClient(c.clients[id])
  }

  predicate PeerServed(c: Cfg, r: string) {
    && r in c.peers && r in c.routers && c.routers[r].enabled
    && c.routers[r].clientId in c.clients
    && c.clients[c.routers[r].clientId].enabled && c.clients[c.routers[r].clientId].Live()
  }

  function CapturePeers(c: Cfg): map<string, RouterPeer> {
    map r | r in c.peers && PeerServed(c, r) ::
      RouterPeer(c.routers[r].clientId, c.peers[r].privateKey, c.peers[r].publicKey,
                 c.peers[r].presharedKey, c.peers[r].ipv4)
  }

  /** None stands for the ValueError of a setting that does not parse. */
  function CaptureConfig(env: Env, c: Cfg): Option<Config> {
    var vless := CaptureVless(env, c.settings);
    var hysteria := CaptureHysteria(env, c.settings);
    var amnezia := CaptureAmnezia(env, c.settings);
    if vless.None? || hysteria.None? || amnezia.None? then None
    else
      Some(Config(Get(c.settings, CurrentIp), Get(c.settings, ConfigUpdatedAt),
                  vless.value, hysteria.value, amnezia.value, CaptureClients(c), c.desired, CapturePeers(c)))
  }

  function ProtocolOf(config: Config, p: Proto): Protocol {
    match p
    case VLESS => config.vless.protocol
    case HYSTERIA => config.hysteria.protocol
    case AMNEZIA => config.amnezia.protocol
  }

  /** A capture that succeeds has read every protocol and number. */
  lemma CaptureReads(env: Env, c: Cfg)
    requires CaptureConfig(env, c).Some?
    ensures forall p :: CaptureProtocol(env, c.settings, p) == Some(ProtocolOf(CaptureConfig(env, c).value, p))
    ensures forall o :: CaptureNumber(env, c.settings, o).Some?
  {
    forall p ensures CaptureProtocol(env, c.settings, p) == Some(ProtocolOf(CaptureConfig(env, c).value, p)) {
      match p
      case VLESS =>
      case HYSTERIA =>
      case AMNEZIA =>
    }
    forall o ensures CaptureNumber(env, c.settings, o).Some? {
      match o
      case JC =>
      case JMIN =>
      case JMAX =>
      case S1 =>
      case S2 =>
      case H1 =>
      case H2 =>
      case H3 =>
      case H4 =>
    }
  }

  /* ---------- what the capture depends on ---------- */

  predicate IsCaptured(k: Key) {
    k.CurrentIp? || k.ConfigUpdatedAt? || k.Enabled? || k.Port? || k.Secret? || k.Tunable? || k.Obf?
  }

  /** Two settings tables with the same protocol settings. */
  predicate SameProtocolReadings(env: Env, s: Settings, s': Settings) {
    && (forall p :: CaptureProtocol(env, s, p) == CaptureProtocol(env, s', p))
    && (forall o :: CaptureNumber(env, s, o) == CaptureNumber(env, s', o))
    && (forall n :: Get(s, Secret(n)) == Get(s', Secret(n)))
    && (forall t :: Configured(env, s, t) == Configured(env, s', t))
  }

  /** Two settings tables that the capture reads alike. */
  predicate SameReadings(env: Env, s: Settings, s': Settings) {
    && Get(s, CurrentIp) == Get(s', CurrentIp)
    && Get(s, ConfigUpdatedAt) == Get(s', ConfigUpdatedAt)
    && SameProtocolReadings(env, s, s')
  }

  lemma SameProtocols(env: Env, s: Settings, s': Settings)
    requires SameProtocolReadings(env, s, s')
    ensures CaptureVless(env, s) == CaptureVless(env, s')
    ensures CaptureHysteria(env, s) == CaptureHysteria(env, s')
    ensures CaptureAmnezia(env, s) == CaptureAmnezia(env, s')
  {
    hide CaptureProtocol, CaptureNumber, Configured, Get;
    assert CaptureObfuscation(env, s) == CaptureObfuscation(env, s');
  }

  /** The capture is a function of these inputs alone. */
  lemma CaptureFrame(env: Env, c: Cfg, c': Cfg)
    requires SameReadings(env, c.settings, c'.settings)
    requires CaptureClients(c) == CaptureClients(c') && CapturePeers(c) == CapturePeers(c')
    requires c.desired == c'.desired
    ensures CaptureConfig(env, c) == CaptureConfig(env, c')
  {
    hide CaptureVless, CaptureHysteria, CaptureAmnezia, CaptureClients, CapturePeers;
    SameProtocols(env, c.settings, c'.settings);
  }
}
