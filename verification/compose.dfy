/**
 * The Docker Compose manifest builder of src/compose_generator.py and its variant
 * in setup.py. The manifest is built as a sequence of lines; the file is those
 * lines joined with newlines. A lookup that raises `KeyError` in the source is an
 * `Err` here, so no partial manifest is ever returned.
 */
module Compose {
  import opened Wrappers
  import opened Text
  import opened OrderedMap
  import opened Paths
  import opened Catalog
  import opened Constants
  import opened VpnConfig

  /** The `KeyError`s the builder can raise, with the service they concern. */
  datatype ComposeError = UnknownService(id: string) | MissingImage(id: string) | MissingPort(id: string)

  /** The scalar arguments of `generate`. */
  datatype Settings = Settings(uid: nat, gid: nat, dockerDir: Path, mediaDir: Path, timezone: string, encryptionKey: string)

  /** A Gluetun configuration was passed and is enabled. */
  predicate VpnActive(config: Option<GluetunConfig>) {
    config.Some? && config.value.enabled
  }

  /** `route_qbit_through_vpn`; it does not ask whether "gluetun" is selected. */
  predicate Delegates(config: Option<GluetunConfig>, selected: seq<string>) {
    VpnActive(config) && config.value.routeQbittorrent && "qbittorrent" in selected
  }

  /** The condition under which the Gluetun block is built. */
  predicate EmitsGluetun(config: Option<GluetunConfig>, selected: seq<string>) {
    VpnActive(config) && "gluetun" in selected
  }

  // ---------------------------------------------------------------------------
  // Line shapes

  /** A line opening an entry under `services:` or `networks:`: two spaces, then a name. */
  predicate IsEntryHeader(line: string) {
    |line| >= 3 && line[0] == ' ' && line[1] == ' ' && line[2] != ' '
  }

  /** A blank line, or one indented deeper than an entry header. */
  predicate Nested(line: string) {
    line == "" || (|line| >= 3 && line[0] == ' ' && line[1] == ' ' && line[2] == ' ')
  }

  /** A line indented past the keys of a service: an item of one of its lists. */
  predicate Deep(line: string) {
    |line| >= 5 && line[4] == ' '
  }

  /** An item of a YAML list inside a service. */
  function ItemLine(s: string): (line: string)
    ensures Nested(line) && Deep(line) && |line| >= 8
  {
    "      - " + s
  }

  /** The header line of a service entry. */
  function EntryHeader(id: string): string {
    "  " + id + ":"
  }

  /** Service ids as the wizard produces them: none starts with a space. */
  predicate PlainId(id: string) {
    id == "" || id[0] != ' '
  }

  /** Lines that stay inside the entry they follow. */
  predicate AllNested(lines: seq<string>) {
    forall i | 0 <= i < |lines| :: Nested(lines[i])
  }

  /** The header lines of a manifest, in order. */
  function Headers(lines: seq<string>): (r: seq<string>)
    ensures forall i | 0 <= i < |r| :: IsEntryHeader(r[i])
  {
    if |lines| == 0 then []
    else (if IsEntryHeader(lines[0]) then [lines[0]] else []) + Headers(lines[1..])
  }

  lemma {:induction false} HeadersAppend(a: seq<string>, b: seq<string>)
    ensures Headers(a + b) == Headers(a) + Headers(b)
  {
    if |a| > 0 {
      assert (a + b)[1..] == a[1..] + b;
      HeadersAppend(a[1..], b);
    } else {
      assert a + b == b;
    }
  }

  lemma {:induction false} HeadersOfNested(lines: seq<string>)
    requires forall i | 0 <= i < |lines| :: Nested(lines[i])
    ensures Headers(lines) == []
  {
    if |lines| > 0 {
      HeadersOfNested(lines[1..]);
    }
  }

  // ---------------------------------------------------------------------------
  // Pieces of a service block

  /** `str(extra_port)`: a number, or the `repr` of a one-line mapping. */
  function PortRepr(e: ExtraPort): string {
    match e
    case Bare(p) => NatToString(p)
    case Annotated(entries) => "{" + Join(EntryReprs(entries), ", ") + "}"
  }

  function EntryReprs(entries: seq<(string, string)>): (r: seq<string>)
    ensures |r| == |entries|
  {
    seq(|entries|, i requires 0 <= i < |entries| => "'" + entries[i].0 + "': '" + entries[i].1 + "'")
  }

  /** `'{p}:{p}'` followed by a suffix. */
  function PortPair(p: string, suffix: string): string {
    "'" + p + ":" + p + suffix + "'"
  }

  /** The environment entries the builder fills in, with their values. */
  function WellKnownValues(s: Settings): seq<(string, string)> {
    [("PUID", NatToString(s.uid)), ("PGID", NatToString(s.gid)), ("TZ", s.timezone),
     ("SECRET_ENCRYPTION_KEY", s.encryptionKey)]
  }

  /** One `env` entry as it appears in the manifest. */
  function EnvLine(e: string, s: Settings): string {
    if e == "PUID" then ItemLine("PUID=" + NatToString(s.uid))
    else if e == "PGID" then ItemLine("PGID=" + NatToString(s.gid))
    else if e == "TZ" then ItemLine("TZ=" + s.timezone)
    else if e == "SECRET_ENCRYPTION_KEY" then ItemLine("SECRET_ENCRYPTION_KEY=" + s.encryptionKey)
    else ItemLine(e)
  }

  function EnvLines(env: seq<string>, s: Settings): (r: seq<string>)
    ensures |r| == |env|
    ensures forall i | 0 <= i < |r| :: Nested(r[i]) && Deep(r[i])
  {
    seq(|env|, i requires 0 <= i < |env| => EnvLine(env[i], s))
  }

  /** A header followed by its items, or nothing when there are no items. */
  function Section(header: string, items: seq<string>): (r: seq<string>)
    ensures |items| == 0 <==> r == []
  {
    if |items| == 0 then [] else [header] + items
  }

  /** `{base / name}:{container}` for each `container: name` volume. */
  function VolumeLines(base: Path, volumes: seq<(string, string)>): (r: seq<string>)
    ensures |r| == |volumes|
    ensures forall i | 0 <= i < |r| :: Nested(r[i]) && Deep(r[i])
  {
    seq(|volumes|, i requires 0 <= i < |volumes| => ItemLine(Render(JoinPath(base, volumes[i].1)) + ":" + volumes[i].0))
  }

  /** `{host}:{container}` for each `container: host` extra volume, host unchanged. */
  function ExtraVolumeLines(volumes: seq<(string, string)>): (r: seq<string>)
    ensures |r| == |volumes|
    ensures forall i | 0 <= i < |r| :: Nested(r[i]) && Deep(r[i])
  {
    seq(|volumes|, i requires 0 <= i < |volumes| => ItemLine(volumes[i].1 + ":" + volumes[i].0))
  }

  /** Config volumes under `docker_dir/id`, media volumes under `media_dir`, then extra volumes. */
  function ServiceVolumeLines(id: string, svc: Service, s: Settings): (r: seq<string>)
    ensures |r| == |svc.volumes| + |svc.mediaVolumes| + |svc.extraVolumes|
    ensures forall i | 0 <= i < |r| :: Nested(r[i]) && Deep(r[i])
  {
    VolumeLines(JoinPath(s.dockerDir, id), svc.volumes) + VolumeLines(s.mediaDir, svc.mediaVolumes)
      + ExtraVolumeLines(svc.extraVolumes)
  }

  /** Each extra port of a service, published as given and as UDP. */
  function ExtraPortLines(extras: seq<ExtraPort>): (r: seq<string>)
    ensures |r| == 2 * |extras|
    ensures forall i | 0 <= i < |r| :: Nested(r[i]) && Deep(r[i])
  {
    if |extras| == 0 then []
    else
      var p := PortRepr(extras[0]);
      [ItemLine(PortPair(p, "")), ItemLine(PortPair(p, "/udp"))] + ExtraPortLines(extras[1..])
  }

  /** The `ports:` items of a service with its own network. */
  function ServicePortLines(port: nat, extras: seq<ExtraPort>): (r: seq<string>)
    ensures |r| == 1 + 2 * |extras|
    ensures forall i | 0 <= i < |r| :: Nested(r[i])
  {
    [ItemLine(PortPair(NatToString(port), ""))] + ExtraPortLines(extras)
  }

  /** How each edition writes the delegation line: setup.py quotes the value. */
  function NetworkModeLine(edition: Edition): string {
    match edition
    case Package => "    network_mode: service:gluetun"
    case Monolith => "    network_mode: \"service:gluetun\""
  }

  const PortsHeader: string := "    ports:"
  const NetworksHeader: string := "    networks:"
  const DependsHeader: string := "    depends_on:"
  const NetworkItem: string := "      - media-network"

  function ImageOf(id: string, svc: Service): Result<string, ComposeError> {
    if svc.image.None? then Err(MissingImage(id)) else Ok(svc.image.value)
  }

  function LookupService(services: Services, id: string): Result<Service, ComposeError> {
    match Get(services, id)
    case None => Err(UnknownService(id))
    case Some(svc) => Ok(svc)
  }

  /** The lines of a block after its header, up to its ports: image, delegation, environment, volumes. */
  function BlockBody(id: string, image: string, svc: Service, s: Settings, edition: Edition, delegated: bool): seq<string> {
    ["    image: " + image, "    container_name: " + id, "    restart: unless-stopped"]
      + DelegationLines(edition, delegated)
      + Section("    environment:", EnvLines(svc.env, s))
      + Section("    volumes:", ServiceVolumeLines(id, svc, s))
  }

  /** `network_mode` and `depends_on` for a delegated service, nothing otherwise. */
  function DelegationLines(edition: Edition, delegated: bool): seq<string> {
    if delegated then [NetworkModeLine(edition), DependsHeader, "      - gluetun"] else []
  }

  /** The ports and network of a service with a network of its own. */
  function OwnNetworkLines(port: nat, extras: seq<ExtraPort>): seq<string> {
    [PortsHeader] + ServicePortLines(port, extras) + BlockEnd
  }

  /**
   * `_build_service_block`. A delegated service uses Gluetun's network and
   * publishes no ports of its own; any other service must have a `port`.
   */
  function ServiceBlock(id: string, svc: Service, s: Settings, edition: Edition, delegated: bool): (r: Result<seq<string>, ComposeError>)
    ensures r.Err? <==> svc.image.None? || (!delegated && svc.port.None?)
    ensures r.Ok? ==> |r.value| >= 5 && r.value[0] == EntryHeader(id) && r.value[|r.value| - 1] == ""
  {
    var image :- ImageOf(id, svc);
    var body := BlockBody(id, image, svc, s, edition, delegated);
    if delegated then Ok([EntryHeader(id)] + (body + [""]))
    else if svc.port.None? then Err(MissingPort(id))
    else Ok([EntryHeader(id)] + (body + OwnNetworkLines(svc.port.value, svc.extraPorts)))
  }

  // ---------------------------------------------------------------------------
  // The Gluetun block

  /** Gluetun's own extra ports: a mapping gives one commented line per entry, a number TCP and UDP lines. */
  function GluetunExtraLines(extras: seq<ExtraPort>): (r: seq<string>)
    ensures forall i | 0 <= i < |r| :: Nested(r[i])
  {
    if |extras| == 0 then []
    else
      var first := match extras[0]
        case Annotated(entries) =>
          seq(|entries|, i requires 0 <= i < |entries| => ItemLine("'" + entries[i].0 + "'  # " + entries[i].1))
        case Bare(p) =>
          [ItemLine(PortPair(NatToString(p), "/tcp")), ItemLine(PortPair(NatToString(p), "/udp"))];
      first + GluetunExtraLines(extras[1..])
  }

  /** qBittorrent's extra ports as Gluetun publishes them. */
  function RehomedExtraLines(extras: seq<ExtraPort>): (r: seq<string>)
    ensures |r| == 2 * |extras|
    ensures forall i | 0 <= i < |r| :: Nested(r[i])
  {
    if |extras| == 0 then []
    else
      var p := PortRepr(extras[0]);
      [ItemLine(PortPair(p, "") + "  # qBittorrent"), ItemLine(PortPair(p, "/udp"))] + RehomedExtraLines(extras[1..])
  }

  /** qBittorrent's ports as Gluetun publishes them (main port default 8080). */
  function RehomedPortLines(qbit: Service): (r: seq<string>)
    ensures |r| == 1 + 2 * |qbit.extraPorts|
    ensures forall i | 0 <= i < |r| :: Nested(r[i])
  {
    var p := NatToString(qbit.port.GetOr(8080));
    [ItemLine(PortPair(p, "") + "  # qBittorrent Web UI")] + RehomedExtraLines(qbit.extraPorts)
  }

  /** The `ports:` items of the Gluetun block (main port default 8888). */
  function GluetunPortLines(svc: Service, route: bool, qbit: Service): (r: seq<string>)
    ensures forall i | 0 <= i < |r| :: Nested(r[i])
  {
    var p := NatToString(svc.port.GetOr(8888));
    [ItemLine(PortPair(p, "/tcp") + "  # HTTP proxy")] + GluetunExtraLines(svc.extraPorts)
      + (if route then RehomedPortLines(qbit) else [])
  }

  function EnvVarLines(env: seq<(string, string)>): (r: seq<string>)
    ensures |r| == |env|
    ensures forall i | 0 <= i < |r| :: Nested(r[i])
  {
    seq(|env|, i requires 0 <= i < |env| => ItemLine(env[i].0 + "=" + env[i].1))
  }

  /** The fixed opening of the Gluetun block. */
  const GluetunCapabilities: seq<string> := [
    "    container_name: gluetun", "    restart: unless-stopped", "    cap_add:", "      - NET_ADMIN",
    "    devices:", "      - /dev/net/tun:/dev/net/tun", "    environment:"
  ]

  /** Image, name, restart policy, tunnel capability, and the `environment:` header. */
  function GluetunHead(image: string): seq<string> {
    ["    image: " + image] + GluetunCapabilities
  }

  /** The time zone, then the VPN variables in their order. */
  function GluetunEnv(timezone: string, env: seq<(string, string)>): seq<string> {
    [ItemLine("TZ=" + timezone)] + EnvVarLines(env)
  }

  /** The volumes header is written even when there are no volumes. */
  function GluetunVolumes(dockerDir: Path, volumes: seq<(string, string)>): seq<string> {
    ["    volumes:"] + VolumeLines(JoinPath(dockerDir, "gluetun"), volumes)
  }

  function GluetunPorts(svc: Service, route: bool, qbit: Service): seq<string> {
    [PortsHeader] + GluetunPortLines(svc, route, qbit)
  }

  const BlockEnd: seq<string> := [NetworksHeader, NetworkItem, ""]

  /** The Gluetun block after its header. */
  function GluetunBody(image: string, svc: Service, s: Settings, env: seq<(string, string)>, route: bool, qbit: Service): seq<string> {
    GluetunHead(image) + GluetunEnv(s.timezone, env) + GluetunVolumes(s.dockerDir, svc.volumes)
      + GluetunPorts(svc, route, qbit) + BlockEnd
  }

  /** `_build_gluetun_block`, given the image and the VPN variables. */
  function GluetunBlock(image: string, svc: Service, s: Settings, env: seq<(string, string)>, route: bool, qbit: Service): seq<string> {
    [EntryHeader("gluetun")] + GluetunBody(image, svc, s, env, route, qbit)
  }

  // ---------------------------------------------------------------------------
  // The manifest

  const Preamble: seq<string> := ["---", "services:", ""]

  const NetworkTail: seq<string> := ["", "networks:", "  media-network:", "    driver: bridge"]

  /** `_build_watchtower_block`; only the package edition ends it with a blank line. */
  function WatchtowerBlock(edition: Edition, timezone: string): seq<string> {
    [EntryHeader("watchtower")] + WatchtowerBody(edition, timezone)
  }

  /** The Watchtower block after its header. */
  function WatchtowerBody(edition: Edition, timezone: string): seq<string> {
    ["    image: containrrr/watchtower:latest", "    container_name: watchtower",
     "    restart: unless-stopped", "    environment:", ItemLine("TZ=" + timezone),
     ItemLine("WATCHTOWER_CLEANUP=true"), ItemLine("WATCHTOWER_SCHEDULE=0 0 5 * * *"), "    volumes:",
     ItemLine("/var/run/docker.sock:/var/run/docker.sock"), NetworksHeader, NetworkItem]
      + (if edition == Package then [""] else [])
  }

  /** The network tail declares one entry: the network. */
  lemma NetworkTailHeaders()
    ensures Headers(NetworkTail) == ["  media-network:"]
  {
  }

  /** The selected ids the service loop builds blocks for: all but "gluetun". */
  function LoopIds(selected: seq<string>): (r: seq<string>)
    ensures forall i | 0 <= i < |r| :: r[i] != "gluetun" && r[i] in selected
    ensures forall id | id in selected && id != "gluetun" :: id in r
  {
    if |selected| == 0 then []
    else (if selected[0] == "gluetun" then [] else [selected[0]]) + LoopIds(selected[1..])
  }

  /** The service loop of `generate`, one block per id, stopping at the first error. */
  function ServiceBlocks(ids: seq<string>, services: Services, s: Settings, edition: Edition, route: bool): Result<seq<seq<string>>, ComposeError>
  {
    if |ids| == 0 then Ok([])
    else
      var svc :- LookupService(services, ids[0]);
      var block :- ServiceBlock(ids[0], svc, s, edition, ids[0] == "qbittorrent" && route);
      var rest :- ServiceBlocks(ids[1..], services, s, edition, route);
      Ok([block] + rest)
  }

  /** The Gluetun block when it is built, nothing otherwise. */
  function GluetunPart(edition: Edition, selected: seq<string>, services: Services, s: Settings, config: Option<GluetunConfig>): Result<seq<string>, ComposeError>
  {
    if !EmitsGluetun(config, selected) then Ok([])
    else
      var svc :- LookupService(services, "gluetun");
      var image :- ImageOf("gluetun", svc);
      Ok(GluetunBlock(image, svc, s, EnvironmentVars(config.value, edition), Delegates(config, selected),
        Get(services, "qbittorrent").GetOr(NoService)))
  }

  /** `generate`, as lines. */
  function Generate(edition: Edition, selected: seq<string>, services: Services, s: Settings, config: Option<GluetunConfig>): Result<seq<string>, ComposeError>
  {
    var gluetun :- GluetunPart(edition, selected, services, s, config);
    var blocks :- ServiceBlocks(LoopIds(selected), services, s, edition, Delegates(config, selected));
    Ok(Preamble + gluetun + Flatten(blocks) + WatchtowerBlock(edition, s.timezone) + NetworkTail)
  }

  /** The text of the file: `"\n".join(lines)`. */
  function RenderManifest(lines: seq<string>): string {
    Join(lines, "\n")
  }
}
