/**
 * The data tables of src/constants.py: the VPN provider table, the optional
 * credential fields, the walkthrough priority order and the Docker subnets tried
 * when detection fails.
 */
module Constants {
  import opened Wrappers
  import opened OrderedMap
  import opened Text
  import opened Utils

  /**
   * The two editions of the wizard: the `src` package and the older single-file
   * `setup.py`, whose compose and environment builders differ in small details.
   */
  datatype Edition = Package | Monolith

  /** The two tunnel protocols Gluetun is configured with. */
  datatype Protocol = OpenVpn | WireGuard {
    /** The value written to `VPN_TYPE`. */
    function Name(): string {
      match this
      case OpenVpn => "openvpn"
      case WireGuard => "wireguard"
    }
  }

  /** One entry of `VPN_PROVIDERS`; `key` is the dictionary key. */
  datatype Provider = Provider(
    key: string,
    name: string,
    providerName: string,
    supportsOpenvpn: bool,
    supportsWireguard: bool,
    openvpnFields: seq<string>,
    wireguardFields: seq<string>,
    credentialsUrl: string,
    wireguardUrl: Option<string>,
    credentialsNote: string)
  {
    /** The credential fields asked for under a protocol. */
    function FieldsFor(protocol: Protocol): seq<string> {
      match protocol
      case OpenVpn => openvpnFields
      case WireGuard => wireguardFields
    }

    function Supports(protocol: Protocol): bool {
      match protocol
      case OpenVpn => supportsOpenvpn
      case WireGuard => supportsWireguard
    }
  }

  /** `VPN_PROVIDERS`, in dictionary order (the order of the provider menu). */
  const VpnProviders: seq<Provider> := [
    Provider("nordvpn", "NordVPN", "nordvpn", true, true,
      ["OPENVPN_USER", "OPENVPN_PASSWORD"], ["WIREGUARD_PRIVATE_KEY"],
      "https://my.nordaccount.com/dashboard/nordvpn/manual-configuration/service-credentials/", None,
      "Use your SERVICE CREDENTIALS (not your email/password). Get them from your NordVPN account dashboard."),
    Provider("mullvad", "Mullvad", "mullvad", true, true,
      ["OPENVPN_USER"], ["WIREGUARD_PRIVATE_KEY", "WIREGUARD_ADDRESSES"],
      "https://mullvad.net/en/account/#/wireguard-config", None,
      "For OpenVPN, use your account number. For WireGuard, generate a config file to get your private key and address."),
    Provider("protonvpn", "ProtonVPN", "protonvpn", true, true,
      ["OPENVPN_USER", "OPENVPN_PASSWORD"], ["WIREGUARD_PRIVATE_KEY"],
      "https://account.proton.me/u/0/vpn/OpenVpnIKEv2", Some("https://account.proton.me/u/0/vpn/WireGuard"),
      "Use your OpenVPN/IKEv2 credentials (NOT your Proton account password)."),
    Provider("surfshark", "Surfshark", "surfshark", true, true,
      ["OPENVPN_USER", "OPENVPN_PASSWORD"], ["WIREGUARD_PRIVATE_KEY", "WIREGUARD_ADDRESSES"],
      "https://my.surfshark.com/vpn/manual-setup/main", None,
      "Find credentials in: VPN → Manual setup → Credentials (OpenVPN) or generate WireGuard keypair."),
    Provider("private internet access", "Private Internet Access (PIA)", "private internet access", true, false,
      ["OPENVPN_USER", "OPENVPN_PASSWORD"], [],
      "https://www.privateinternetaccess.com/account/client-control-panel", None,
      "Use your PIA username and password."),
    Provider("expressvpn", "ExpressVPN", "expressvpn", true, false,
      ["OPENVPN_USER", "OPENVPN_PASSWORD"], [],
      "https://www.expressvpn.com/setup", None,
      "Get your manual configuration credentials from the ExpressVPN setup page."),
    Provider("ivpn", "IVPN", "ivpn", true, true,
      ["OPENVPN_USER", "OPENVPN_PASSWORD"], ["WIREGUARD_PRIVATE_KEY"],
      "https://www.ivpn.net/account/login", None,
      "Use your IVPN account credentials.")
  ]

  /** `OPTIONAL_CREDENTIAL_FIELDS`: credentials that may be left empty. */
  const OptionalCredentialFields: set<string> := {"OPENVPN_PASSWORD", "WIREGUARD_PRESHARED_KEY"}

  /** `SETUP_ORDER_PRIORITY`: the order in which the guide walks through services. */
  const SetupOrderPriority: seq<string> := [
    "gluetun", "qbittorrent", "radarr", "sonarr", "lidarr", "mylar3", "prowlarr",
    "jackett", "bazarr", "audiobookshelf", "jellyfin", "plex", "emby", "seerr",
    "tautulli", "nzbget", "sabnzbd", "homarr", "flaresolverr"
  ]

  /** `COMMON_DOCKER_SUBNETS`, in order of preference. */
  const CommonDockerSubnets: seq<string> := [
    "172.17.0.0/16", "172.18.0.0/16", "172.19.0.0/16", "172.20.0.0/16"
  ]

  /** A provider entry every consumer of the table can rely on. */
  predicate WellFormedProvider(p: Provider) {
    && (p.supportsOpenvpn || p.supportsWireguard)
    && (forall protocol: Protocol | p.Supports(protocol) :: |p.FieldsFor(protocol)| > 0)
    && (!p.supportsWireguard ==> p.wireguardFields == [])
    && p.name != "" && p.providerName != "" && p.credentialsUrl != "" && p.credentialsNote != ""
    && p.key == p.providerName
  }

  /**
   * Every provider supports a protocol, lists fields for each protocol it supports
   * (and none for an unsupported WireGuard), carries the descriptive fields, and is
   * filed under its own `provider_name`.
   */
  lemma ProvidersWellFormed()
    ensures forall i | 0 <= i < |VpnProviders| :: WellFormedProvider(VpnProviders[i])
  {
  }

  /** Seven providers with distinct keys, so menu choice 8 is the manual entry. */
  lemma ProviderTableShape()
    ensures |VpnProviders| == 7
    ensures Distinct(seq(|VpnProviders|, i requires 0 <= i < |VpnProviders| => VpnProviders[i].key))
    ensures forall i | 0 <= i < |VpnProviders| :: VpnProviders[i].key != "custom"
  {
  }

  /** Only ProtonVPN has a separate WireGuard credentials page. */
  lemma WireguardUrls()
    ensures forall i | 0 <= i < |VpnProviders| :: VpnProviders[i].wireguardUrl.Some? <==> VpnProviders[i].key == "protonvpn"
  {
  }

  /** A code that tells the priority entries apart: each differs in length or first letter. */
  function NameCode(s: string): int {
    if |s| == 0 then 0 else |s| * 256 + s[0] as int
  }

  lemma PriorityCodesDistinct()
    ensures Distinct(seq(|SetupOrderPriority|, i requires 0 <= i < |SetupOrderPriority| => NameCode(SetupOrderPriority[i])))
  {
  }

  /** The priority list names each service once and starts with the VPN and the download client. */
  lemma SetupOrderShape()
    ensures Distinct(SetupOrderPriority)
    ensures |SetupOrderPriority| == 19
    ensures SetupOrderPriority[0] == "gluetun" && SetupOrderPriority[1] == "qbittorrent"
  {
    var codes := seq(|SetupOrderPriority|, i requires 0 <= i < |SetupOrderPriority| => NameCode(SetupOrderPriority[i]));
    PriorityCodesDistinct();
    forall i, j | 0 <= i < j < |SetupOrderPriority| ensures SetupOrderPriority[i] != SetupOrderPriority[j] {
      assert codes[i] != codes[j];
    }
  }

  /** Each fallback subnet `172.k.0.0/16` passes the subnet syntax check. */
  lemma DockerSubnet17()
    ensures ValidSubnetFormat("172.17.0.0/16")
  {
    NatStrings();
    assert "172.17.0.0/16" == Cidr(172, 17, 0, 0, 16);
    CidrValid(172, 17, 0, 0, 16);
  }

  lemma DockerSubnet18()
    ensures ValidSubnetFormat("172.18.0.0/16")
  {
    NatStrings();
    assert NatToString(18) == NatToString(1) + "8";
    assert "172.18.0.0/16" == Cidr(172, 18, 0, 0, 16);
    CidrValid(172, 18, 0, 0, 16);
  }

  lemma DockerSubnet19()
    ensures ValidSubnetFormat("172.19.0.0/16")
  {
    NatStrings();
    assert NatToString(19) == NatToString(1) + "9";
    assert "172.19.0.0/16" == Cidr(172, 19, 0, 0, 16);
    CidrValid(172, 19, 0, 0, 16);
  }

  lemma DockerSubnet20()
    ensures ValidSubnetFormat("172.20.0.0/16")
  {
    NatStrings();
    assert NatToString(2) == "2";
    assert NatToString(20) == NatToString(2) + "0";
    assert "172.20.0.0/16" == Cidr(172, 20, 0, 0, 16);
    CidrValid(172, 20, 0, 0, 16);
  }

  /** Every fallback subnet passes the subnet syntax check. */
  lemma CommonSubnetsValid()
    ensures forall i | 0 <= i < |CommonDockerSubnets| :: ValidSubnetFormat(CommonDockerSubnets[i])
  {
    forall i | 0 <= i < |CommonDockerSubnets| ensures ValidSubnetFormat(CommonDockerSubnets[i]) {
      if i == 0 {
        DockerSubnet17();
      } else if i == 1 {
        DockerSubnet18();
      } else if i == 2 {
        DockerSubnet19();
      } else {
        DockerSubnet20();
      }
    }
  }
}
