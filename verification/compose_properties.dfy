/**
 * What the Compose manifest builder guarantees: when it fails, which services
 * sit in the manifest and in what order, how a delegated qBittorrent differs from
 * an ordinary service, where its ports go, and how the two editions differ.
 */
module ComposeProperties {
  import opened Wrappers
  import opened Text
  import opened OrderedMap
  import opened Paths
  import opened Catalog
  import opened Constants
  import opened VpnConfig
  import opened Compose
  import opened ComposeBlocks

  // ---------------------------------------------------------------------------
  // Success and failure

  /** What the service loop needs of one id: a catalog entry with an image, and a port unless delegated. */
  predicate Buildable(services: Services, id: string, route: bool) {
    && Get(services, id).Some?
    && Get(services, id).value.image.Some?
    && (Get(services, id).value.port.Some? || (id == "qbittorrent" && route))
  }

  /** The loop built `block` for `id`: the id is in the catalog and its block came out as `block`. */
  predicate BuiltAs(services: Services, id: string, s: Settings, edition: Edition, route: bool, block: seq<string>) {
    && Get(services, id).Some?
    && ServiceBlock(id, Get(services, id).value, s, edition, id == "qbittorrent" && route) == Ok(block)
  }

  /** One step of the loop: the first id's block, then the blocks of the rest. */
  lemma ServiceBlocksHead(ids: seq<string>, services: Services, s: Settings, edition: Edition, route: bool)
    requires |ids| > 0
    requires ServiceBlocks(ids, services, s, edition, route).Ok?
    ensures ServiceBlocks(ids[1..], services, s, edition, route).Ok?
    ensures var blocks := ServiceBlocks(ids, services, s, edition, route).value;
      && BuiltAs(services, ids[0], s, edition, route, blocks[0])
      && blocks[1..] == ServiceBlocks(ids[1..], services, s, edition, route).value
  {
    var blocks := ServiceBlocks(ids, services, s, edition, route).value;
    assert blocks[1..] == ServiceBlocks(ids[1..], services, s, edition, route).value;
  }

  /** The service loop yields one block per id, each built with its own delegation flag. */
  lemma {:induction false} ServiceBlocksShape(ids: seq<string>, services: Services, s: Settings, edition: Edition, route: bool)
    requires ServiceBlocks(ids, services, s, edition, route).Ok?
    ensures var blocks := ServiceBlocks(ids, services, s, edition, route).value;
      && |blocks| == |ids|
      && forall k | 0 <= k < |ids| :: BuiltAs(services, ids[k], s, edition, route, blocks[k])
  {
    if |ids| > 0 {
      ServiceBlocksShape(ids[1..], services, s, edition, route);
      var blocks := ServiceBlocks(ids, services, s, edition, route).value;
      var rest := ServiceBlocks(ids[1..], services, s, edition, route).value;
      ServiceBlocksHead(ids, services, s, edition, route);
      forall k | 0 < k < |ids| ensures BuiltAs(services, ids[k], s, edition, route, blocks[k]) {
        assert ids[k] == ids[1..][k - 1];
        assert blocks[k] == rest[k - 1];
      }
    }
  }

  /** One step of the service loop: it goes on past an id exactly when that id is buildable. */
  lemma ServiceBlocksStep(ids: seq<string>, services: Services, s: Settings, edition: Edition, route: bool)
    requires |ids| > 0
    ensures ServiceBlocks(ids, services, s, edition, route).Ok? <==>
      Buildable(services, ids[0], route) && ServiceBlocks(ids[1..], services, s, edition, route).Ok?
  {
  }

  /** The service loop succeeds exactly when every id is buildable. */
  lemma {:induction false} ServiceBlocksSucceed(ids: seq<string>, services: Services, s: Settings, edition: Edition, route: bool)
    ensures ServiceBlocks(ids, services, s, edition, route).Ok? <==>
      forall k | 0 <= k < |ids| :: Buildable(services, ids[k], route)
  {
    if |ids| > 0 {
      ServiceBlocksSucceed(ids[1..], services, s, edition, route);
      ServiceBlocksStep(ids, services, s, edition, route);
      AllSplit(ids, services, route);
    }
  }

  /** Every id is buildable exactly when the first one and all the later ones are. */
  lemma AllSplit(ids: seq<string>, services: Services, route: bool)
    requires |ids| > 0
    ensures (forall k | 0 <= k < |ids| :: Buildable(services, ids[k], route)) <==>
      Buildable(services, ids[0], route) && forall k | 0 <= k < |ids[1..]| :: Buildable(services, ids[1..][k], route)
  {
    if Buildable(services, ids[0], route) && forall k | 0 <= k < |ids[1..]| :: Buildable(services, ids[1..][k], route) {
      forall k | 0 < k < |ids| ensures Buildable(services, ids[k], route) {
        assert ids[k] == ids[1..][k - 1];
      }
    }
  }

  /**
   * The manifest is produced exactly when the Gluetun entry (if its block is due)
   * exists with an image, and every other selected service exists with an image
   * and, unless it is the delegated qBittorrent, a port. Otherwise nothing is
   * produced: a selected id missing from the catalog always fails the build.
   */
  lemma GenerateSucceeds(edition: Edition, selected: seq<string>, services: Services, s: Settings, config: Option<GluetunConfig>)
    ensures Generate(edition, selected, services, s, config).Ok? <==>
      && (EmitsGluetun(config, selected) ==>
            Get(services, "gluetun").Some? && Get(services, "gluetun").value.image.Some?)
      && forall id | id in selected && id != "gluetun" :: Buildable(services, id, Delegates(config, selected))
    ensures forall id | id in selected && id != "gluetun" && Get(services, id).None? ::
      Generate(edition, selected, services, s, config).Err?
  {
    var ids := LoopIds(selected);
    var route := Delegates(config, selected);
    ServiceBlocksSucceed(ids, services, s, edition, route);
    LoopBuildable(selected, services, route);
    GluetunPartSucceeds(edition, selected, services, s, config);
  }

  /** The Gluetun block comes out when it is not wanted, or when its entry has an image. */
  lemma GluetunPartSucceeds(edition: Edition, selected: seq<string>, services: Services, s: Settings, config: Option<GluetunConfig>)
    ensures GluetunPart(edition, selected, services, s, config).Ok? <==>
      (EmitsGluetun(config, selected) ==> Get(services, "gluetun").Some? && Get(services, "gluetun").value.image.Some?)
  {
  }

  /** The loop's ids are all buildable exactly when every selected id but Gluetun's is. */
  lemma LoopBuildable(selected: seq<string>, services: Services, route: bool)
    ensures (forall k | 0 <= k < |LoopIds(selected)| :: Buildable(services, LoopIds(selected)[k], route)) <==>
      forall id | id in selected && id != "gluetun" :: Buildable(services, id, route)
  {
    var ids := LoopIds(selected);
    if forall k | 0 <= k < |ids| :: Buildable(services, ids[k], route) {
      forall id | id in selected && id != "gluetun" ensures Buildable(services, id, route) {
        var k :| 0 <= k < |ids| && ids[k] == id;
      }
    }
    if forall id | id in selected && id != "gluetun" :: Buildable(services, id, route) {
      forall k | 0 <= k < |ids| ensures Buildable(services, ids[k], route) {
        assert ids[k] in selected && ids[k] != "gluetun";
      }
    }
  }

  // ---------------------------------------------------------------------------
  // Entries of the manifest

  /** The entry headers of the given services, in order. */
  function EntryHeaders(ids: seq<string>): (r: seq<string>)
    ensures |r| == |ids|
  {
    seq(|ids|, i requires 0 <= i < |ids| => EntryHeader(ids[i]))
  }

  /** Distinct services have distinct entry headers. */
  lemma EntryHeaderInjective(a: string, b: string)
    ensures EntryHeader(a) == EntryHeader(b) <==> a == b
  {
    if EntryHeader(a) == EntryHeader(b) {
      assert |a| == |b|;
      forall i | 0 <= i < |a| ensures a[i] == b[i] {
        assert a[i] == EntryHeader(a)[i + 2];
        assert b[i] == EntryHeader(b)[i + 2];
      }
    }
  }

  lemma PlainHeader(id: string)
    requires PlainId(id)
    ensures IsEntryHeader(EntryHeader(id))
  {
  }

  lemma {:induction false} AllNestedAppend(a: seq<string>, b: seq<string>)
    ensures AllNested(a + b) <==> AllNested(a) && AllNested(b)
  {
    if AllNested(a) && AllNested(b) {
      forall i | 0 <= i < |a + b| ensures Nested((a + b)[i]) {
        if i >= |a| {
          assert (a + b)[i] == b[i - |a|];
        }
      }
    }
    if AllNested(a + b) {
      forall i | 0 <= i < |a| ensures Nested(a[i]) {
        assert (a + b)[i] == a[i];
      }
      forall i | 0 <= i < |b| ensures Nested(b[i]) {
        assert (a + b)[i + |a|] == b[i];
      }
    }
  }

  lemma FixedNested(image: string, id: string)
    ensures AllNested(["    image: " + image, "    container_name: " + id, "    restart: unless-stopped"])
  {
    assert ("    image: " + image)[..3] == "   ";
    assert ("    container_name: " + id)[..3] == "   ";
  }

  lemma DelegationNested(edition: Edition, delegated: bool)
    ensures AllNested(DelegationLines(edition, delegated))
  {
    if delegated {
      var mode := NetworkModeLine(edition);
      assert mode[0] == ' ' && mode[1] == ' ' && mode[2] == ' ';
      assert Nested(DependsHeader) && Nested("      - gluetun");
    }
  }

  /** A section under a header indented by three spaces or more, with nested items, is all nested. */
  lemma SectionNested(header: string, items: seq<string>)
    requires |header| >= 3 && header[..3] == "   "
    requires AllNested(items)
    ensures AllNested(Section(header, items))
  {
    if |items| > 0 {
      assert header[0] == ' ' && header[1] == ' ' && header[2] == ' ';
      HeaderNested(header, items);
    }
  }

  lemma BlockBodyNested(id: string, image: string, svc: Service, s: Settings, edition: Edition, delegated: bool)
    ensures AllNested(BlockBody(id, image, svc, s, edition, delegated))
  {
    var fixed := ["    image: " + image, "    container_name: " + id, "    restart: unless-stopped"];
    var delegation := DelegationLines(edition, delegated);
    var env := Section("    environment:", EnvLines(svc.env, s));
    var volumes := Section("    volumes:", ServiceVolumeLines(id, svc, s));
    FixedNested(image, id);
    DelegationNested(edition, delegated);
    assert "    environment:"[..3] == "   " && "    volumes:"[..3] == "   ";
    SectionNested("    environment:", EnvLines(svc.env, s));
    SectionNested("    volumes:", ServiceVolumeLines(id, svc, s));
    AllNestedAppend(fixed, delegation);
    AllNestedAppend(fixed + delegation, env);
    AllNestedAppend(fixed + delegation + env, volumes);
  }

  lemma OwnNetworkNested(port: nat, extras: seq<ExtraPort>)
    ensures AllNested(OwnNetworkLines(port, extras))
  {
    var items := ServicePortLines(port, extras);
    assert PortsHeader[0] == ' ' && PortsHeader[1] == ' ' && PortsHeader[2] == ' ';
    HeaderNested(PortsHeader, items);
    BlockEndNested();
    AllNestedAppend([PortsHeader] + items, BlockEnd);
  }

  /** A header indented by at least three spaces, followed by nested lines, is all nested. */
  lemma HeaderNested(h: string, b: seq<string>)
    requires |h| >= 3 && h[0] == ' ' && h[1] == ' ' && h[2] == ' '
    requires AllNested(b)
    ensures AllNested([h] + b)
  {
    AllNestedAppend([h], b);
  }

  /** Everything after a service block's header line is nested inside it. */
  lemma ServiceBlockNested(id: string, svc: Service, s: Settings, edition: Edition, delegated: bool)
    requires ServiceBlock(id, svc, s, edition, delegated).Ok?
    ensures AllNested(ServiceBlock(id, svc, s, edition, delegated).value[1..])
  {
    var image := svc.image.value;
    var body := BlockBody(id, image, svc, s, edition, delegated);
    BlockBodyNested(id, image, svc, s, edition, delegated);
    var block := ServiceBlock(id, svc, s, edition, delegated).value;
    if delegated {
      assert block[1..] == body + [""];
      AllNestedAppend(body, [""]);
    } else {
      assert block[1..] == body + OwnNetworkLines(svc.port.value, svc.extraPorts);
      OwnNetworkNested(svc.port.value, svc.extraPorts);
      AllNestedAppend(body, OwnNetworkLines(svc.port.value, svc.extraPorts));
    }
  }

  lemma GluetunHeadNested(image: string)
    ensures AllNested(GluetunHead(image))
  {
    var h := GluetunHead(image);
    forall i | 0 <= i < |h| ensures Nested(h[i]) {
      if i > 0 {
        assert h[i] == GluetunCapabilities[i - 1];
      }
    }
  }

  lemma GluetunEnvNested(timezone: string, env: seq<(string, string)>)
    ensures AllNested(GluetunEnv(timezone, env))
  {
    AllNestedAppend([ItemLine("TZ=" + timezone)], EnvVarLines(env));
  }

  lemma GluetunVolumesNested(dockerDir: Path, volumes: seq<(string, string)>)
    ensures AllNested(GluetunVolumes(dockerDir, volumes))
  {
    VolumesNested(JoinPath(dockerDir, "gluetun"), volumes);
  }

  lemma VolumesNested(base: Path, volumes: seq<(string, string)>)
    ensures AllNested(["    volumes:"] + VolumeLines(base, volumes))
  {
    assert "    volumes:"[0] == ' ' && "    volumes:"[1] == ' ' && "    volumes:"[2] == ' ';
    HeaderNested("    volumes:", VolumeLines(base, volumes));
  }

  lemma GluetunPortsNested(svc: Service, route: bool, qbit: Service)
    ensures AllNested(GluetunPorts(svc, route, qbit))
  {
    AllNestedAppend([PortsHeader], GluetunPortLines(svc, route, qbit));
  }

  lemma BlockEndNested()
    ensures AllNested(BlockEnd)
  {
  }

  lemma GluetunBodyNested(image: string, svc: Service, s: Settings, env: seq<(string, string)>, route: bool, qbit: Service)
    ensures AllNested(GluetunBody(image, svc, s, env, route, qbit))
  {
    var a := GluetunHead(image);
    var b := GluetunEnv(s.timezone, env);
    var c := GluetunVolumes(s.dockerDir, svc.volumes);
    var d := GluetunPorts(svc, route, qbit);
    GluetunHeadNested(image);
    GluetunEnvNested(s.timezone, env);
    GluetunVolumesNested(s.dockerDir, svc.volumes);
    GluetunPortsNested(svc, route, qbit);
    BlockEndNested();
    AllNestedAppend(a, b);
    AllNestedAppend(a + b, c);
    AllNestedAppend(a + b + c, d);
    AllNestedAppend(a + b + c + d, BlockEnd);
  }

  /** A service block has exactly one entry header: its own. */
  lemma ServiceBlockHeaders(id: string, svc: Service, s: Settings, edition: Edition, delegated: bool)
    requires PlainId(id)
    requires ServiceBlock(id, svc, s, edition, delegated).Ok?
    ensures Headers(ServiceBlock(id, svc, s, edition, delegated).value) == [EntryHeader(id)]
  {
    var block := ServiceBlock(id, svc, s, edition, delegated).value;
    PlainHeader(id);
    ServiceBlockNested(id, svc, s, edition, delegated);
    HeadersOfNested(block[1..]);
    assert block == [block[0]] + block[1..];
  }

  /** The Gluetun block has exactly one entry header. */
  lemma GluetunBlockHeaders(image: string, svc: Service, s: Settings, env: seq<(string, string)>, route: bool, qbit: Service)
    ensures Headers(GluetunBlock(image, svc, s, env, route, qbit)) == [EntryHeader("gluetun")]
  {
    var block := GluetunBlock(image, svc, s, env, route, qbit);
    assert block[1..] == GluetunBody(image, svc, s, env, route, qbit);
    GluetunBodyNested(image, svc, s, env, route, qbit);
    HeadersOfNested(block[1..]);
  }

  lemma FixedPartsHeaders(edition: Edition, timezone: string)
    ensures Headers(Preamble) == []
    ensures Headers(WatchtowerBlock(edition, timezone)) == [EntryHeader("watchtower")]
    ensures Headers(NetworkTail) == ["  media-network:"]
  {
    WatchtowerHeaders(edition, timezone);
    NetworkTailHeaders();
  }

  lemma WatchtowerHeaders(edition: Edition, timezone: string)
    ensures Headers(WatchtowerBlock(edition, timezone)) == [EntryHeader("watchtower")]
  {
    var body := WatchtowerBody(edition, timezone);
    WatchtowerBodyNested(edition, timezone);
    HeadersOfNested(body);
    HeadersAppend([EntryHeader("watchtower")], body);
    assert IsEntryHeader(EntryHeader("watchtower"));
  }

  lemma WatchtowerBodyNested(edition: Edition, timezone: string)
    ensures AllNested(WatchtowerBody(edition, timezone))
  {
  }

  lemma {:induction false} HeadersFlatten(blocks: seq<seq<string>>, ids: seq<string>)
    requires |blocks| == |ids|
    requires forall k | 0 <= k < |ids| :: Headers(blocks[k]) == [EntryHeader(ids[k])]
    ensures Headers(Flatten(blocks)) == EntryHeaders(ids)
  {
    if |ids| > 0 {
      HeadersFlatten(blocks[1..], ids[1..]);
      HeadersAppend(blocks[0], Flatten(blocks[1..]));
      assert EntryHeaders(ids) == [EntryHeader(ids[0])] + EntryHeaders(ids[1..]);
    }
  }

  lemma BlocksHeaders(ids: seq<string>, services: Services, s: Settings, edition: Edition, route: bool)
    requires forall k | 0 <= k < |ids| :: PlainId(ids[k])
    requires ServiceBlocks(ids, services, s, edition, route).Ok?
    ensures Headers(Flatten(ServiceBlocks(ids, services, s, edition, route).value)) == EntryHeaders(ids)
  {
    var blocks := ServiceBlocks(ids, services, s, edition, route).value;
    ServiceBlocksShape(ids, services, s, edition, route);
    forall k | 0 <= k < |ids| ensures Headers(blocks[k]) == [EntryHeader(ids[k])] {
      ServiceBlockHeaders(ids[k], Get(services, ids[k]).value, s, edition, ids[k] == "qbittorrent" && route);
    }
    HeadersFlatten(blocks, ids);
  }

  lemma GluetunPartHeaders(edition: Edition, selected: seq<string>, services: Services, s: Settings, config: Option<GluetunConfig>)
    requires GluetunPart(edition, selected, services, s, config).Ok?
    ensures Headers(GluetunPart(edition, selected, services, s, config).value) ==
      if EmitsGluetun(config, selected) then [EntryHeader("gluetun")] else []
  {
    if EmitsGluetun(config, selected) {
      var svc := Get(services, "gluetun").value;
      GluetunBlockHeaders(svc.image.value, svc, s, EnvironmentVars(config.value, edition), Delegates(config, selected),
        Get(services, "qbittorrent").GetOr(NoService));
    }
  }

  /** A successful build is the preamble, the Gluetun part, the service blocks, Watchtower and the network. */
  lemma GenerateParts(edition: Edition, selected: seq<string>, services: Services, s: Settings, config: Option<GluetunConfig>)
    requires Generate(edition, selected, services, s, config).Ok?
    ensures GluetunPart(edition, selected, services, s, config).Ok?
    ensures ServiceBlocks(LoopIds(selected), services, s, edition, Delegates(config, selected)).Ok?
    ensures Generate(edition, selected, services, s, config).value ==
      Preamble + GluetunPart(edition, selected, services, s, config).value
        + Flatten(ServiceBlocks(LoopIds(selected), services, s, edition, Delegates(config, selected)).value)
        + WatchtowerBlock(edition, s.timezone) + NetworkTail
  {
  }

  /**
   * The entries of the manifest, in order: Gluetun when its block is due, then
   * every other selected service in selection order, then Watchtower, then the
   * one network.
   */
  lemma ManifestEntries(edition: Edition, selected: seq<string>, services: Services, s: Settings, config: Option<GluetunConfig>)
    requires forall k | 0 <= k < |selected| :: PlainId(selected[k])
    requires Generate(edition, selected, services, s, config).Ok?
    ensures Headers(Generate(edition, selected, services, s, config).value) ==
      (if EmitsGluetun(config, selected) then [EntryHeader("gluetun")] else [])
      + EntryHeaders(LoopIds(selected)) + [EntryHeader("watchtower"), "  media-network:"]
  {
    GenerateParts(edition, selected, services, s, config);
    PartsHeaders(edition, selected, services, s, config);
  }

  /** The entries of the manifest's parts, before they are put together. */
  lemma PartsHeaders(edition: Edition, selected: seq<string>, services: Services, s: Settings, config: Option<GluetunConfig>)
    requires forall k | 0 <= k < |selected| :: PlainId(selected[k])
    requires GluetunPart(edition, selected, services, s, config).Ok?
    requires ServiceBlocks(LoopIds(selected), services, s, edition, Delegates(config, selected)).Ok?
    ensures Headers(Preamble + GluetunPart(edition, selected, services, s, config).value
        + Flatten(ServiceBlocks(LoopIds(selected), services, s, edition, Delegates(config, selected)).value)
        + WatchtowerBlock(edition, s.timezone) + NetworkTail) ==
      (if EmitsGluetun(config, selected) then [EntryHeader("gluetun")] else [])
      + EntryHeaders(LoopIds(selected)) + [EntryHeader("watchtower"), "  media-network:"]
  {
    var gluetun := GluetunPart(edition, selected, services, s, config).value;
    var ids := LoopIds(selected);
    var blocks := ServiceBlocks(ids, services, s, edition, Delegates(config, selected)).value;
    var tail := WatchtowerBlock(edition, s.timezone);
    GluetunPartHeaders(edition, selected, services, s, config);
    BlocksHeaders(ids, services, s, edition, Delegates(config, selected));
    FixedPartsHeaders(edition, s.timezone);
    ManifestHeadersFrom(Preamble + gluetun + Flatten(blocks) + tail + NetworkTail, Preamble, gluetun, Flatten(blocks), tail, NetworkTail,
      if EmitsGluetun(config, selected) then [EntryHeader("gluetun")] else [], EntryHeaders(ids),
      EntryHeader("watchtower"), "  media-network:");
  }

  /** The header computation of `ManifestEntries`, over the parts alone. */
  lemma ManifestHeadersFrom(lines: seq<string>, preamble: seq<string>, gluetun: seq<string>, body: seq<string>,
                            tail: seq<string>, network: seq<string>,
                            gluetunHeaders: seq<string>, bodyHeaders: seq<string>, w: string, n: string)
    requires lines == preamble + gluetun + body + tail + network
    requires Headers(preamble) == [] && Headers(gluetun) == gluetunHeaders && Headers(body) == bodyHeaders
    requires Headers(tail) == [w] && Headers(network) == [n]
    ensures Headers(lines) == gluetunHeaders + bodyHeaders + [w, n]
  {
    HeadersOfFive(preamble, gluetun, body, tail, network);
    AppendPair(gluetunHeaders, bodyHeaders, w, n);
  }

  lemma AppendPair(a: seq<string>, b: seq<string>, x: string, y: string)
    ensures a + b + [x, y] == [] + a + b + [x] + [y]
  {
  }

  lemma HeadersOfFive(a: seq<string>, b: seq<string>, c: seq<string>, d: seq<string>, e: seq<string>)
    ensures Headers(a + b + c + d + e) == Headers(a) + Headers(b) + Headers(c) + Headers(d) + Headers(e)
  {
    HeadersAppend(a, b);
    HeadersAppend(a + b, c);
    HeadersAppend(a + b + c, d);
    HeadersAppend(a + b + c + d, e);
  }

  /**
   * With the VPN enabled and "gluetun" selected, the Gluetun entry is the first
   * entry and appears once; otherwise a selected "gluetun" produces no entry.
   */
  lemma GluetunFirstAndOnce(edition: Edition, selected: seq<string>, services: Services, s: Settings, config: Option<GluetunConfig>)
    requires forall k | 0 <= k < |selected| :: PlainId(selected[k])
    requires Generate(edition, selected, services, s, config).Ok?
    ensures var headers := Headers(Generate(edition, selected, services, s, config).value);
      && multiset(headers)[EntryHeader("gluetun")] == (if EmitsGluetun(config, selected) then 1 else 0)
      && (EmitsGluetun(config, selected) ==> |headers| > 0 && headers[0] == EntryHeader("gluetun"))
  {
    ManifestEntries(edition, selected, services, s, config);
    GluetunCount(EmitsGluetun(config, selected), LoopIds(selected),
      Headers(Generate(edition, selected, services, s, config).value));
  }

  /** A header list whose middle names no Gluetun holds Gluetun's header once, first, exactly when it opens with it. */
  lemma GluetunCount(emits: bool, ids: seq<string>, headers: seq<string>)
    requires forall i | 0 <= i < |ids| :: ids[i] != "gluetun"
    requires headers == (if emits then [EntryHeader("gluetun")] else [])
      + EntryHeaders(ids) + [EntryHeader("watchtower"), "  media-network:"]
    ensures multiset(headers)[EntryHeader("gluetun")] == (if emits then 1 else 0)
    ensures emits ==> |headers| > 0 && headers[0] == EntryHeader("gluetun")
  {
    forall k | 0 <= k < |ids| ensures EntryHeaders(ids)[k] != EntryHeader("gluetun") {
      EntryHeaderInjective(ids[k], "gluetun");
    }
    assert EntryHeader("gluetun") !in EntryHeaders(ids);
    EntryHeaderInjective("watchtower", "gluetun");
    assert EntryHeader("gluetun")[2] == 'g' && "  media-network:"[2] == 'm';
    assert multiset(EntryHeaders(ids))[EntryHeader("gluetun")] == 0;
  }

  /** Every selected service other than Gluetun has exactly one entry per time it is selected. */
  lemma SelectedServicesPresent(edition: Edition, selected: seq<string>, services: Services, s: Settings, config: Option<GluetunConfig>, id: string)
    requires forall k | 0 <= k < |selected| :: PlainId(selected[k])
    requires Generate(edition, selected, services, s, config).Ok?
    requires id in selected && id != "gluetun"
    ensures EntryHeader(id) in Headers(Generate(edition, selected, services, s, config).value)
  {
    ManifestEntries(edition, selected, services, s, config);
    var ids := LoopIds(selected);
    var k :| 0 <= k < |ids| && ids[k] == id;
    assert EntryHeaders(ids)[k] == EntryHeader(id);
  }

  // ---------------------------------------------------------------------------
  // Frame of the manifest

  lemma FrameOf(lines: seq<string>, a: seq<string>, b: seq<string>, c: seq<string>, d: seq<string>, e: seq<string>)
    requires lines == a + b + c + d + e
    ensures |lines| >= |a| + |d| + |e|
    ensures lines[..|a|] == a && lines[|lines| - |d| - |e|..] == d + e
  {
    assert lines == a + (b + c) + (d + e);
  }

  /**
   * Whatever is selected, the manifest opens with "---", "services:" and a blank
   * line, and closes with the Watchtower block and a `networks:` section that
   * declares only `media-network` with the bridge driver.
   */
  lemma ManifestFrame(edition: Edition, selected: seq<string>, services: Services, s: Settings, config: Option<GluetunConfig>)
    requires Generate(edition, selected, services, s, config).Ok?
    ensures var lines := Generate(edition, selected, services, s, config).value;
      var tail := WatchtowerBlock(edition, s.timezone) + ["", "networks:", "  media-network:", "    driver: bridge"];
      && |lines| >= 3 + |tail|
      && lines[..3] == ["---", "services:", ""]
      && lines[|lines| - |tail|..] == tail
  {
    var lines := Generate(edition, selected, services, s, config).value;
    GenerateParts(edition, selected, services, s, config);
    FrameOf(lines, Preamble, GluetunPart(edition, selected, services, s, config).value,
      Flatten(ServiceBlocks(LoopIds(selected), services, s, edition, Delegates(config, selected)).value),
      WatchtowerBlock(edition, s.timezone), NetworkTail);
  }

  // ---------------------------------------------------------------------------
  // Delegation without a Gluetun entry

  lemma {:induction false} InFlatten(blocks: seq<seq<string>>, k: nat, line: string)
    requires k < |blocks| && line in blocks[k]
    ensures line in Flatten(blocks)
  {
    if k > 0 {
      InFlatten(blocks[1..], k - 1, line);
    }
  }

  /**
   * The delegation flag does not ask whether "gluetun" is selected: with the VPN
   * routing qBittorrent but "gluetun" not selected, the manifest has no Gluetun
   * entry, yet qBittorrent still points its network at the Gluetun service.
   */
  lemma DanglingDelegation(edition: Edition, selected: seq<string>, services: Services, s: Settings, config: Option<GluetunConfig>)
    requires forall k | 0 <= k < |selected| :: PlainId(selected[k])
    requires Delegates(config, selected) && "gluetun" !in selected
    requires Generate(edition, selected, services, s, config).Ok?
    ensures var lines := Generate(edition, selected, services, s, config).value;
      EntryHeader("gluetun") !in Headers(lines) && NetworkModeLine(edition) in lines
  {
    DanglingNoEntry(edition, selected, services, s, config);
    DelegatedNetworkMode(edition, selected, services, s, config);
  }

  lemma DanglingNoEntry(edition: Edition, selected: seq<string>, services: Services, s: Settings, config: Option<GluetunConfig>)
    requires forall k | 0 <= k < |selected| :: PlainId(selected[k])
    requires "gluetun" !in selected
    requires Generate(edition, selected, services, s, config).Ok?
    ensures EntryHeader("gluetun") !in Headers(Generate(edition, selected, services, s, config).value)
  {
    GluetunFirstAndOnce(edition, selected, services, s, config);
    CountZero(Headers(Generate(edition, selected, services, s, config).value), EntryHeader("gluetun"));
  }

  lemma CountZero(xs: seq<string>, x: string)
    requires multiset(xs)[x] == 0
    ensures x !in xs
  {
  }

  /** A delegated qBittorrent's block carries the network-mode line, so the manifest does. */
  lemma DelegatedNetworkMode(edition: Edition, selected: seq<string>, services: Services, s: Settings, config: Option<GluetunConfig>)
    requires forall k | 0 <= k < |selected| :: PlainId(selected[k])
    requires Delegates(config, selected)
    requires Generate(edition, selected, services, s, config).Ok?
    ensures NetworkModeLine(edition) in Generate(edition, selected, services, s, config).value
  {
    GenerateParts(edition, selected, services, s, config);
    var blocks := ServiceBlocks(LoopIds(selected), services, s, edition, true).value;
    BlocksCarryNetworkMode(LoopIds(selected), services, s, edition);
    InMiddle(Generate(edition, selected, services, s, config).value,
      Preamble + GluetunPart(edition, selected, services, s, config).value, Flatten(blocks),
      WatchtowerBlock(edition, s.timezone) + NetworkTail, NetworkModeLine(edition));
  }

  /** When the loop delegates and builds qBittorrent, its lines hold the network-mode line. */
  lemma BlocksCarryNetworkMode(ids: seq<string>, services: Services, s: Settings, edition: Edition)
    requires "qbittorrent" in ids
    requires ServiceBlocks(ids, services, s, edition, true).Ok?
    ensures NetworkModeLine(edition) in Flatten(ServiceBlocks(ids, services, s, edition, true).value)
  {
    var blocks := ServiceBlocks(ids, services, s, edition, true).value;
    ServiceBlocksShape(ids, services, s, edition, true);
    var k :| 0 <= k < |ids| && ids[k] == "qbittorrent";
    ServiceBlockDelegation("qbittorrent", Get(services, "qbittorrent").value, s, edition, true);
    InFlatten(blocks, k, NetworkModeLine(edition));
  }

  lemma InMiddle(lines: seq<string>, a: seq<string>, b: seq<string>, c: seq<string>, line: string)
    requires lines == a + b + c
    requires line in b
    ensures line in lines
  {
  }

  // ---------------------------------------------------------------------------
  // How the wizards fill in the selection

  /**
   * The selection and configuration the wizard hands to the builders after its
   * VPN step: the VPN is offered only when qBittorrent is selected, and a
   * configured VPN puts "gluetun" at the front of the selection; the package
   * only when it is missing, the monolith unconditionally.
   */
  function WizardVpn(edition: Edition, selected: seq<string>, configured: GluetunConfig): (seq<string>, GluetunConfig) {
    if "qbittorrent" !in selected then (selected, Fresh)
    else if !configured.enabled then (selected, configured)
    else match edition
      case Package => (if "gluetun" in selected then selected else ["gluetun"] + selected, configured)
      case Monolith => (["gluetun"] + selected, configured)
  }

  /**
   * After the wizard's VPN step, delegation never dangles: whenever qBittorrent
   * is routed through the VPN, the Gluetun block is built. The selection only
   * gains "gluetun", and only when the VPN was configured.
   */
  lemma WizardNoDangling(edition: Edition, selected: seq<string>, configured: GluetunConfig)
    ensures var (sel, c) := WizardVpn(edition, selected, configured);
      && (Delegates(Some(c), sel) ==> EmitsGluetun(Some(c), sel))
      && (sel == selected || (c.enabled && sel == ["gluetun"] + selected))
      && (c.enabled ==> "gluetun" in sel)
  {
  }

  /** With the wizard's selection, a routed qBittorrent always finds the Gluetun entry first in the manifest. */
  lemma WizardManifest(edition: Edition, selected: seq<string>, configured: GluetunConfig, services: Services, s: Settings,
                       sel: seq<string>, c: GluetunConfig)
    requires forall k | 0 <= k < |selected| :: PlainId(selected[k])
    requires (sel, c) == WizardVpn(edition, selected, configured)
    requires Generate(edition, sel, services, s, Some(c)).Ok?
    ensures var headers := Headers(Generate(edition, sel, services, s, Some(c)).value);
      Delegates(Some(c), sel) ==> |headers| > 0 && headers[0] == EntryHeader("gluetun")
  {
    WizardNoDangling(edition, selected, configured);
    WizardPlainIds(edition, selected, configured);
    GluetunFirstAndOnce(edition, sel, services, s, Some(c));
  }

  lemma WizardPlainIds(edition: Edition, selected: seq<string>, configured: GluetunConfig)
    requires forall k | 0 <= k < |selected| :: PlainId(selected[k])
    ensures var sel := WizardVpn(edition, selected, configured).0;
      forall k | 0 <= k < |sel| :: PlainId(sel[k])
  {
    var sel := WizardVpn(edition, selected, configured).0;
    WizardNoDangling(edition, selected, configured);
    forall k | 0 <= k < |sel| ensures PlainId(sel[k]) {
      if sel != selected && k > 0 {
        assert sel[k] == selected[k - 1];
      }
    }
  }
}
