/** The captured VPN configuration and its canonical record (app/vpn_config.py).

    A list that the source sorts by a unique key is a map from that key; the JSON text of a
    record is the record itself. */
module VpnConfig {
  import opened Base

  datatype Protocol = Protocol(enabled: bool, port: int)

  datatype Vless = Vless(
    protocol: Protocol, privateKey: string, publicKey: string, shortId: string, target: string,
    serverNames: seq<string>, serverName: string, fingerprint: string, spiderX: string)

  datatype Hysteria = Hysteria(protocol: Protocol, password: string, obfsPassword: string, authType: string)

  datatype Obfuscation = Obfuscation(
    jc: int, jmin: int, jmax: int, s1: int, s2: int, h1: int, h2: int, h3: int, h4: int)

  datatype Amnezia = Amnezia(
    protocol: Protocol, serverPrivateKey: string, serverPublicKey: string,
    obfuscation: Obfuscation, networkPrefix: string, dns: string)

  datatype VpnClient = VpnClient(
    name: string, token: string, enabled: bool, vlessUuid: string, hysteriaPassword: string,
    awgPrivate: string, awgPublic: string, awgPreshared: string, awgIpv4: Option<nat>, createdAt: string)

  datatype RouterPeer = RouterPeer(
    clientId: nat, privateKey: string, publicKey: string, presharedKey: string, ipv4: nat)

  datatype Config = Config(
    currentIp: string, configUpdatedAt: string, vless: Vless, hysteria: Hysteria, amnezia: Amnezia,
    clients: map<nat, VpnClient>, revision: nat, routerPeers: map<string, RouterPeer>)
  {
    function EnabledClients(): (r: map<nat, VpnClient>) {
      map id | id in clients && clients[id].enabled :: clients[id]
    }
  }

  /** The stored record. Two fields are missing from historical rows; the peers are left out when empty. */
  datatype Payload = Payload(
    schemaVersion: int, revision: nat, currentIp: string, configUpdatedAt: Option<string>,
    vless: Vless, hysteria: Hysteria, authType: Option<string>, amnezia: Amnezia,
    clients: map<nat, VpnClient>, routerPeers: Option<map<string, RouterPeer>>)

  const LEGACY_AUTH := "password"

  function ToPayload(c: Config): Payload {
    Payload(1, c.revision, c.currentIp, Some(c.configUpdatedAt), c.vless, c.hysteria.(authType := ""),
            Some(c.hysteria.authType), c.amnezia, c.EnabledClients(),
            if c.routerPeers == map[] then None else Some(c.routerPeers))
  }

  function FromPayload(p: Payload): Option<Config> {
    if p.schemaVersion != 1 then None
    else
      Some(Config(p.currentIp, p.configUpdatedAt.GetOr(""), p.vless,
                  p.hysteria.(authType := p.authType.GetOr(LEGACY_AUTH)), p.amnezia,
                  p.clients, p.revision, p.routerPeers.GetOr(map[])))
  }

  /** Reading a stored record gives the captured configuration back, less its disabled clients. */
  lemma DecodeEncode(c: Config)
    ensures FromPayload(ToPayload(c)) == Some(c.(clients := c.EnabledClients()))
  {
  }

  /** Writing back what was read gives the same record exactly when it is one the current writer produces:
      every historical gap (no update time, no auth type, an explicit empty peer list, a disabled client)
      is normalised away by a second write. */
  lemma EncodeDecode(p: Payload)
    requires p.schemaVersion == 1 && p.hysteria.authType == ""
    ensures FromPayload(p).Some?
    ensures ToPayload(FromPayload(p).value) == p
       <==> && p.configUpdatedAt.Some? && p.authType.Some? && p.routerPeers != Some(map[])
            && (forall id | id in p.clients :: p.clients[id].enabled)
  {
    var c := FromPayload(p).value;
    if forall id | id in p.clients :: p.clients[id].enabled {
      assert c.EnabledClients() == p.clients;
    } else {
      var id :| id in p.clients && !p.clients[id].enabled;
      assert id !in c.EnabledClients();
    }
  }

  /** What a rotation publishes is the bound record with three fields replaced, as if the configuration had
      been captured with those fields (app/vpn_state.py:250-257). */
  lemma RepublishedRecord(c: Config, ip: string, at: string, revision: nat)
    ensures ToPayload(FromPayload(ToPayload(c)).value.(currentIp := ip, configUpdatedAt := at, revision := revision))
         == ToPayload(c.(currentIp := ip, configUpdatedAt := at, revision := revision))
  {
    DecodeEncode(c);
    var enabled := c.(clients := c.EnabledClients());
    assert enabled.EnabledClients() == c.EnabledClients();
  }
}
