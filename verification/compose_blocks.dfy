/**
 * Properties of single blocks of the Compose manifest: what delegation to
 * Gluetun changes in a service block, which ports Gluetun publishes for
 * qBittorrent, how environment entries and volumes are written, and where the
 * two editions differ.
 */
module ComposeBlocks {
  import opened Wrappers
  import opened Text
  import opened OrderedMap
  import opened Paths
  import opened Catalog
  import opened Constants
  import opened Compose

  // ---------------------------------------------------------------------------
  // Delegation

  /** A line that is not a list item is in none of a list of items. */
  lemma DeepExcludes(items: seq<string>, line: string)
    requires forall i | 0 <= i < |items| :: Deep(items[i])
    requires !Deep(line)
    ensures line !in items
  {
  }

  /** The four keys that delegation switches on or off. */
  predicate DelegationKey(line: string, edition: Edition) {
    line == NetworkModeLine(edition) || line == DependsHeader || line == PortsHeader || line == NetworksHeader
  }

  /** Neither the environment nor the volume section holds a delegation key. */
  lemma SectionsFree(svc: Service, id: string, s: Settings, edition: Edition, line: string)
    requires DelegationKey(line, edition)
    ensures line !in Section("    environment:", EnvLines(svc.env, s))
    ensures line !in Section("    volumes:", ServiceVolumeLines(id, svc, s))
  {
    DeepExcludes(EnvLines(svc.env, s), line);
    DeepExcludes(ServiceVolumeLines(id, svc, s), line);
  }

  /** Up to its ports, a block holds `network_mode` and `depends_on` exactly when delegated, and never `ports` or `networks`. */
  lemma BlockBodyKeys(id: string, image: string, svc: Service, s: Settings, edition: Edition, delegated: bool)
    ensures var body := BlockBody(id, image, svc, s, edition, delegated);
      && (NetworkModeLine(edition) in body <==> delegated)
      && (DependsHeader in body <==> delegated)
      && PortsHeader !in body
      && NetworksHeader !in body
  {
    var fixed := ["    image: " + image, "    container_name: " + id, "    restart: unless-stopped"];
    var deleg := DelegationLines(edition, delegated);
    var env := Section("    environment:", EnvLines(svc.env, s));
    var vols := Section("    volumes:", ServiceVolumeLines(id, svc, s));
    KeyColumns(edition);
    DelegationKeys(edition, delegated);
    forall line | DelegationKey(line, edition)
      ensures line in fixed + deleg + env + vols <==> line in deleg
    {
      FixedLacks(image, id, line);
      SectionsFree(svc, id, s, edition, line);
      InFour(fixed, deleg, env, vols, line);
    }
  }

  /** The fifth character of each delegation key, which tells it from the fixed lines. */
  lemma KeyColumns(edition: Edition)
    ensures forall line | DelegationKey(line, edition) :: |line| > 4 && line[4] in "ndp"
  {
    assert NetworkModeLine(edition)[4] == 'n';
    assert DependsHeader[4] == 'd' && PortsHeader[4] == 'p' && NetworksHeader[4] == 'n';
  }

  /** A line whose fifth character is none of `i`, `c`, `r` is none of the fixed keys. */
  lemma FixedLacks(image: string, id: string, line: string)
    requires |line| > 4 && line[4] in "ndp"
    ensures line !in ["    image: " + image, "    container_name: " + id, "    restart: unless-stopped"]
  {
    assert ("    image: " + image)[4] == 'i';
    assert ("    container_name: " + id)[4] == 'c';
    assert "    restart: unless-stopped"[4] == 'r';
  }

  /** The delegation lines hold `network_mode` and `depends_on` exactly when delegated, and never `ports` or `networks`. */
  lemma DelegationKeys(edition: Edition, delegated: bool)
    ensures var d := DelegationLines(edition, delegated);
      && (NetworkModeLine(edition) in d <==> delegated)
      && (DependsHeader in d <==> delegated)
      && PortsHeader !in d
      && NetworksHeader !in d
  {
    assert NetworkModeLine(edition)[5] == 'e';
    assert DependsHeader[5] == 'e' && PortsHeader[5] == 'o' && NetworksHeader[5] == 'e';
    assert "      - gluetun"[4] == ' ';
  }

  lemma InFour(a: seq<string>, b: seq<string>, c: seq<string>, d: seq<string>, x: string)
    ensures x in a + b + c + d <==> x in a || x in b || x in c || x in d
  { }

  /** The ports and network of a service with a network of its own hold no delegation line. */
  lemma OwnNetworkKeys(port: nat, extras: seq<ExtraPort>, edition: Edition)
    ensures var tail := OwnNetworkLines(port, extras);
      && PortsHeader in tail && NetworksHeader in tail
      && NetworkModeLine(edition) !in tail && DependsHeader !in tail
  {
    var items := ServicePortLines(port, extras);
    var tail := OwnNetworkLines(port, extras);
    assert tail == [PortsHeader] + items + BlockEnd;
    assert tail[0] == PortsHeader && tail[|tail| - 3] == NetworksHeader;
    DeepExcludes(items, NetworkModeLine(edition));
    DeepExcludes(items, DependsHeader);
  }

  /** What follows the keys of a block: a blank line when delegated, its ports and network otherwise. */
  function BlockTail(svc: Service, delegated: bool): seq<string>
    requires delegated || svc.port.Some?
  {
    if delegated then [""] else OwnNetworkLines(svc.port.value, svc.extraPorts)
  }

  /** A built block is its header, its keys, and its tail. */
  lemma ServiceBlockParts(id: string, svc: Service, s: Settings, edition: Edition, delegated: bool)
    requires ServiceBlock(id, svc, s, edition, delegated).Ok?
    ensures svc.image.Some? && (delegated || svc.port.Some?)
    ensures ServiceBlock(id, svc, s, edition, delegated).value ==
      [EntryHeader(id)] + BlockBody(id, svc.image.value, svc, s, edition, delegated) + BlockTail(svc, delegated)
  {
  }

  /** The header of a plain id is none of the delegation keys. */
  lemma HeaderNotKey(id: string, edition: Edition)
    requires PlainId(id)
    ensures !DelegationKey(EntryHeader(id), edition)
  {
    var header := EntryHeader(id);
    if |id| > 0 {
      assert header[2] == id[0];
    }
  }

  /** Membership in a block made of three parts. */
  lemma InParts(block: seq<string>, header: string, body: seq<string>, tail: seq<string>, line: string)
    requires block == [header] + body + tail
    ensures line in block <==> line == header || line in body || line in tail
  {
  }

  /**
   * A delegated service block says `network_mode: service:gluetun` and
   * `depends_on` and has no `ports:` and no `networks:`; an ordinary block is the
   * other way round.
   */
  lemma ServiceBlockDelegation(id: string, svc: Service, s: Settings, edition: Edition, delegated: bool)
    requires PlainId(id)
    requires ServiceBlock(id, svc, s, edition, delegated).Ok?
    ensures var block := ServiceBlock(id, svc, s, edition, delegated).value;
      && (NetworkModeLine(edition) in block <==> delegated)
      && (DependsHeader in block <==> delegated)
      && (PortsHeader in block <==> !delegated)
      && (NetworksHeader in block <==> !delegated)
  {
    var block := ServiceBlock(id, svc, s, edition, delegated).value;
    ServiceBlockParts(id, svc, s, edition, delegated);
    var body := BlockBody(id, svc.image.value, svc, s, edition, delegated);
    var tail := BlockTail(svc, delegated);
    BlockBodyKeys(id, svc.image.value, svc, s, edition, delegated);
    HeaderNotKey(id, edition);
    if !delegated {
      OwnNetworkKeys(svc.port.value, svc.extraPorts, edition);
    }
    InParts(block, EntryHeader(id), body, tail, NetworkModeLine(edition));
    InParts(block, EntryHeader(id), body, tail, DependsHeader);
    InParts(block, EntryHeader(id), body, tail, PortsHeader);
    InParts(block, EntryHeader(id), body, tail, NetworksHeader);
  }

  /** A service without its own network publishes exactly one port line for its port and two per extra port. */
  lemma PortCount(svc: Service, id: string, s: Settings, edition: Edition)
    requires ServiceBlock(id, svc, s, edition, false).Ok?
    ensures var block := ServiceBlock(id, svc, s, edition, false).value;
      var ports := ServicePortLines(svc.port.value, svc.extraPorts);
      && |ports| == 1 + 2 * |svc.extraPorts|
      && block[|block| - |ports| - 4..] == [PortsHeader] + ports + [NetworksHeader, NetworkItem, ""]
  {
    ServiceBlockParts(id, svc, s, edition, false);
    var block := ServiceBlock(id, svc, s, edition, false).value;
    var ports := ServicePortLines(svc.port.value, svc.extraPorts);
    SuffixOf([EntryHeader(id)] + BlockBody(id, svc.image.value, svc, s, edition, false), OwnNetworkLines(svc.port.value, svc.extraPorts), block);
  }

  lemma SuffixOf(a: seq<string>, b: seq<string>, c: seq<string>)
    requires c == a + b
    ensures c[|c| - |b|..] == b
  {
  }

  // ---------------------------------------------------------------------------
  // qBittorrent's ports on Gluetun

  /** Each line of `a` is a prefix of the line of `b` at the same place. */
  predicate Prefixwise(a: seq<string>, b: seq<string>) {
    |a| == |b| && forall k | 0 <= k < |a| :: a[k] <= b[k]
  }

  lemma PrefixwiseAppend(a: seq<string>, b: seq<string>, c: seq<string>, d: seq<string>)
    requires Prefixwise(a, c) && Prefixwise(b, d)
    ensures Prefixwise(a + b, c + d)
  {
    forall k | 0 <= k < |a + b| ensures (a + b)[k] <= (c + d)[k] {
      if k >= |a| {
        assert (a + b)[k] == b[k - |a|] && (c + d)[k] == d[k - |a|];
      }
    }
  }

  /** A comment appended to an item leaves the item as a prefix. */
  lemma ItemLineExtends(s: string, comment: string)
    ensures ItemLine(s) <= ItemLine(s + comment)
  {
    assert ItemLine(s + comment) == ItemLine(s) + comment;
  }

  lemma {:induction false} RehomedExtrasMatch(extras: seq<ExtraPort>)
    ensures Prefixwise(ExtraPortLines(extras), RehomedExtraLines(extras))
  {
    if |extras| > 0 {
      RehomedExtrasMatch(extras[1..]);
      var p := PortRepr(extras[0]);
      var x, x', y := ItemLine(PortPair(p, "")), ItemLine(PortPair(p, "") + "  # qBittorrent"), ItemLine(PortPair(p, "/udp"));
      ItemLineExtends(PortPair(p, ""), "  # qBittorrent");
      PairPrefixwise(x, x', y);
      PrefixwiseAppend([x, y], ExtraPortLines(extras[1..]), [x', y], RehomedExtraLines(extras[1..]));
    }
  }

  lemma PairPrefixwise(x: string, x': string, y: string)
    requires x <= x'
    ensures Prefixwise([x, y], [x', y])
  { }

  /**
   * The port lines Gluetun publishes for a delegated qBittorrent are, one for one,
   * the lines qBittorrent would have published itself (main port defaulting to
   * 8080), each followed at most by a comment.
   */
  lemma RehomedPortsMatch(qbit: Service)
    ensures var own := ServicePortLines(qbit.port.GetOr(8080), qbit.extraPorts);
      var rehomed := RehomedPortLines(qbit);
      && |own| == |rehomed|
      && forall k | 0 <= k < |own| :: own[k] <= rehomed[k]
  {
    var p := NatToString(qbit.port.GetOr(8080));
    RehomedExtrasMatch(qbit.extraPorts);
    ItemLineExtends(PortPair(p, ""), "  # qBittorrent Web UI");
    PrefixwiseAppend([ItemLine(PortPair(p, ""))], ExtraPortLines(qbit.extraPorts),
      [ItemLine(PortPair(p, "") + "  # qBittorrent Web UI")], RehomedExtraLines(qbit.extraPorts));
  }

  /** Gluetun publishes qBittorrent's ports, after its own, exactly when qBittorrent is delegated. */
  lemma GluetunPortsRoute(svc: Service, qbit: Service)
    ensures GluetunPortLines(svc, true, qbit) == GluetunPortLines(svc, false, qbit) + RehomedPortLines(qbit)
    ensures |GluetunPortLines(svc, false, qbit)| >= 1
  {
    var p := NatToString(svc.port.GetOr(8888));
    Assoc([ItemLine(PortPair(p, "/tcp") + "  # HTTP proxy")], GluetunExtraLines(svc.extraPorts), []);
  }

  // ---------------------------------------------------------------------------
  // Environment and volumes

  /**
   * An environment entry that names one of the well-known variables is written
   * with the value the builder holds for it; any other entry is written verbatim.
   */
  lemma EnvLineValues(e: string, s: Settings)
    ensures match Get(WellKnownValues(s), e)
      case Some(v) => EnvLine(e, s) == ItemLine(e + "=" + v)
      case None => EnvLine(e, s) == ItemLine(e)
  {
    var table := WellKnownValues(s);
    assert Get(table[4..], e) == None;
    if e != "SECRET_ENCRYPTION_KEY" {
      assert Get(table[3..], e) == Get(table[4..], e);
    }
    if e != "TZ" {
      assert Get(table[2..], e) == Get(table[3..], e);
    }
    if e != "PGID" {
      assert Get(table[1..], e) == Get(table[2..], e);
    }
    if e != "PUID" {
      assert Get(table, e) == Get(table[1..], e);
    }
  }

  /** The `environment:` key appears in a block exactly when the service lists environment entries. */
  lemma EnvironmentHeaderPresent(id: string, image: string, svc: Service, s: Settings, edition: Edition, delegated: bool)
    ensures "    environment:" in BlockBody(id, image, svc, s, edition, delegated) <==> |svc.env| > 0
  {
    var fixed := ["    image: " + image, "    container_name: " + id, "    restart: unless-stopped"];
    var env := Section("    environment:", EnvLines(svc.env, s));
    var vols := Section("    volumes:", ServiceVolumeLines(id, svc, s));
    assert BlockBody(id, image, svc, s, edition, delegated) == fixed + DelegationLines(edition, delegated) + env + vols;
    DeepExcludes(EnvLines(svc.env, s), "    environment:");
    DeepExcludes(ServiceVolumeLines(id, svc, s), "    environment:");
    assert fixed[0][4] == 'i' && fixed[1][4] == 'c' && fixed[2][4] == 'r';
    if |svc.env| > 0 {
      assert env[0] == "    environment:";
    }
  }

  /** The `volumes:` key appears in a block exactly when one of the three volume maps is non-empty. */
  lemma VolumesHeaderPresent(id: string, image: string, svc: Service, s: Settings, edition: Edition, delegated: bool)
    ensures "    volumes:" in BlockBody(id, image, svc, s, edition, delegated) <==>
      |svc.volumes| + |svc.mediaVolumes| + |svc.extraVolumes| > 0
  {
    var fixed := ["    image: " + image, "    container_name: " + id, "    restart: unless-stopped"];
    var env := Section("    environment:", EnvLines(svc.env, s));
    var vols := Section("    volumes:", ServiceVolumeLines(id, svc, s));
    assert BlockBody(id, image, svc, s, edition, delegated) == fixed + DelegationLines(edition, delegated) + env + vols;
    DeepExcludes(EnvLines(svc.env, s), "    volumes:");
    DeepExcludes(ServiceVolumeLines(id, svc, s), "    volumes:");
    assert fixed[0][4] == 'i' && fixed[1][4] == 'c' && fixed[2][4] == 'r';
    if |ServiceVolumeLines(id, svc, s)| > 0 {
      assert vols[0] == "    volumes:";
    }
  }

  /**
   * The volume lines of a service: its config volumes under `docker_dir/id`, then
   * its media volumes under `media_dir`, then its extra volumes with the host path
   * as written, each as `host:container`.
   */
  lemma ServiceVolumeOrder(id: string, svc: Service, s: Settings)
    ensures var r := ServiceVolumeLines(id, svc, s);
      var a := |svc.volumes|;
      var b := a + |svc.mediaVolumes|;
      && (forall k | 0 <= k < a ::
            r[k] == ItemLine(Render(JoinPath(JoinPath(s.dockerDir, id), svc.volumes[k].1)) + ":" + svc.volumes[k].0))
      && (forall k | a <= k < b ::
            r[k] == ItemLine(Render(JoinPath(s.mediaDir, svc.mediaVolumes[k - a].1)) + ":" + svc.mediaVolumes[k - a].0))
      && (forall k | b <= k < |r| ::
            r[k] == ItemLine(svc.extraVolumes[k - b].1 + ":" + svc.extraVolumes[k - b].0))
  {
    ThreeIndex(VolumeLines(JoinPath(s.dockerDir, id), svc.volumes), VolumeLines(s.mediaDir, svc.mediaVolumes),
      ExtraVolumeLines(svc.extraVolumes));
  }

  /** Indexing into three concatenated parts. */
  lemma ThreeIndex(a: seq<string>, b: seq<string>, c: seq<string>)
    ensures forall k | 0 <= k < |a| :: (a + b + c)[k] == a[k]
    ensures forall k | |a| <= k < |a| + |b| :: (a + b + c)[k] == b[k - |a|]
    ensures forall k | |a| + |b| <= k < |a| + |b| + |c| :: (a + b + c)[k] == c[k - |a| - |b|]
  {
  }

  /** A media volume named "." mounts the media directory itself. */
  lemma MediaRootVolume(mediaDir: Path, container: string)
    ensures VolumeLines(mediaDir, [(container, ".")]) == [ItemLine(Render(mediaDir) + ":" + container)]
  {
    JoinDot(mediaDir);
  }

  /** A config volume with a plain name sits in the service's own directory under `docker_dir`. */
  lemma ConfigVolumePath(dockerDir: Path, id: string, name: string)
    requires id != "" && id != "." && '/' !in id
    requires name != "" && name != "." && '/' !in name
    ensures JoinPath(JoinPath(dockerDir, id), name) == Path(dockerDir.absolute, dockerDir.segments + [id, name])
  {
    JoinName(dockerDir, id);
    JoinName(JoinPath(dockerDir, id), name);
  }

  // ---------------------------------------------------------------------------
  // The two editions

  /** Without delegation both editions write the same service block. */
  lemma EditionsAgreeUndelegated(id: string, svc: Service, s: Settings)
    ensures ServiceBlock(id, svc, s, Package, false) == ServiceBlock(id, svc, s, Monolith, false)
  {
  }

  /** The keys of a delegated block in the two editions differ only in the `network_mode` line. */
  lemma BodyEditions(id: string, image: string, svc: Service, s: Settings)
    ensures var p := BlockBody(id, image, svc, s, Package, true);
      var m := BlockBody(id, image, svc, s, Monolith, true);
      && |p| == |m| && |p| > 3
      && p[3] == NetworkModeLine(Package) && m[3] == NetworkModeLine(Monolith)
      && forall k | 0 <= k < |p| && k != 3 :: p[k] == m[k]
  {
    var a := ["    image: " + image, "    container_name: " + id, "    restart: unless-stopped"];
    var t := [DependsHeader, "      - gluetun"];
    assert DelegationLines(Package, true) == [NetworkModeLine(Package)] + t;
    assert DelegationLines(Monolith, true) == [NetworkModeLine(Monolith)] + t;
    OneApart(a, NetworkModeLine(Package), NetworkModeLine(Monolith), t,
      Section("    environment:", EnvLines(svc.env, s)), Section("    volumes:", ServiceVolumeLines(id, svc, s)));
  }

  /** Two concatenations that differ only in one line. */
  lemma OneApart(a: seq<string>, x: string, y: string, t: seq<string>, c: seq<string>, d: seq<string>)
    ensures var p := a + ([x] + t) + c + d;
      var m := a + ([y] + t) + c + d;
      && |p| == |m| && p[|a|] == x && m[|a|] == y
      && forall k | 0 <= k < |p| && k != |a| :: p[k] == m[k]
  {
    var p := a + ([x] + t) + c + d;
    var m := a + ([y] + t) + c + d;
    forall k | 0 <= k < |p| && k != |a| ensures p[k] == m[k] {
      if k > |a| {
        assert p[k] == (t + c + d)[k - |a| - 1] by { assert p == a + [x] + (t + c + d); }
        assert m[k] == (t + c + d)[k - |a| - 1] by { assert m == a + [y] + (t + c + d); }
      }
    }
  }

  /** Wrapping two sequences that differ at one index moves that index by the length of the prefix. */
  lemma WrapApart(p: seq<string>, m: seq<string>, i: nat, header: string, tail: seq<string>)
    requires |p| == |m| && i < |p|
    requires forall k | 0 <= k < |p| && k != i :: p[k] == m[k]
    ensures var wp := [header] + p + tail;
      var wm := [header] + m + tail;
      && |wp| == |wm| && wp[i + 1] == p[i] && wm[i + 1] == m[i]
      && forall k | 0 <= k < |wp| && k != i + 1 :: wp[k] == wm[k]
  {
  }

  /** Under delegation the editions differ only in the quoting of the `network_mode` line. */
  lemma EditionsDelegated(id: string, svc: Service, s: Settings)
    requires svc.image.Some?
    ensures var p := ServiceBlock(id, svc, s, Package, true).value;
      var m := ServiceBlock(id, svc, s, Monolith, true).value;
      && |p| == |m|
      && p[4] == NetworkModeLine(Package) && m[4] == NetworkModeLine(Monolith)
      && forall k | 0 <= k < |p| && k != 4 :: p[k] == m[k]
  {
    ServiceBlockParts(id, svc, s, Package, true);
    ServiceBlockParts(id, svc, s, Monolith, true);
    BodyEditions(id, svc.image.value, svc, s);
    WrapApart(BlockBody(id, svc.image.value, svc, s, Package, true), BlockBody(id, svc.image.value, svc, s, Monolith, true),
      3, EntryHeader(id), [""]);
  }

  /** The package edition's Watchtower block is the monolith's followed by one blank line. */
  lemma WatchtowerEditions(timezone: string)
    ensures WatchtowerBlock(Package, timezone) == WatchtowerBlock(Monolith, timezone) + [""]
  {
    Assoc([EntryHeader("watchtower")], WatchtowerBody(Monolith, timezone), [""]);
  }
}
