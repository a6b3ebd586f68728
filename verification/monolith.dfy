/**
 * The pieces of the single-file wizard `setup.py` that the package does not share:
 * its own setup guide, the qBittorrent host name, the encryption-key decision and
 * the `.env` lines of `_generate_files`, and the walkthrough order. Its compose and
 * Gluetun variants are the `Monolith` edition of the package's builders.
 */
module Monolith {
  import opened Wrappers
  import opened Text
  import opened OrderedMap
  import opened Utils
  import opened Constants
  import opened Catalog
  import opened VpnConfig
  import opened Paths
  import Compose
  import Guide

  /** Why the guide or the files cannot be built: the `KeyError` the script would raise. */
  datatype FileError = UnknownService(id: string) | MissingField(id: string, field: string)

  // ---------------------------------------------------------------------------
  // Encryption key

  /** `generate_encryption_key()`: 64 characters from [A-Za-z0-9]. */
  function MonolithKey(draw: nat -> nat): (key: string)
    ensures |key| == 64
    ensures forall i | 0 <= i < |key| :: IsAlnum(key[i])
  {
    RandomKey(64, draw)
  }

  /** The selected service is in the catalog and asks for a key. */
  predicate NeedsKey(services: Services, id: string) {
    Get(services, id).Some? && Get(services, id).value.needsEncryptionKey
  }

  /**
   * The loop at the start of `_generate_files`: the first selected service that
   * asks for a key makes one, and the loop stops; an id missing from the catalog
   * before that raises. Without such a service the key stays empty.
   */
  function KeyFor(selected: seq<string>, services: Services, draw: nat -> nat): (r: Result<string, FileError>)
    ensures r.Ok? ==> r.value == "" || r.value == MonolithKey(draw)
    ensures r.Err? ==> r.error.UnknownService? && r.error.id in selected && Get(services, r.error.id).None?
  {
    if |selected| == 0 then Ok("")
    else match Get(services, selected[0])
      case None => Err(UnknownService(selected[0]))
      case Some(svc) =>
        if svc.needsEncryptionKey then Ok(MonolithKey(draw)) else KeyFor(selected[1..], services, draw)
  }

  /** Selected ids before position `j` are all in the catalog and none asks for a key. */
  predicate PassedOver(selected: seq<string>, services: Services, j: int)
    requires 0 <= j <= |selected|
  {
    forall i | 0 <= i < j :: Get(services, selected[i]).Some? && !NeedsKey(services, selected[i])
  }

  /**
   * A key is made exactly when some selected service asks for one and every
   * selected id before it is in the catalog.
   */
  lemma {:induction false} KeyGenerated(selected: seq<string>, services: Services, draw: nat -> nat)
    ensures KeyFor(selected, services, draw) == Ok(MonolithKey(draw)) <==>
      exists j | 0 <= j < |selected| :: NeedsKey(services, selected[j]) && PassedOver(selected, services, j)
  {
    if |selected| > 0 {
      var rest := selected[1..];
      KeyGenerated(rest, services, draw);
      var r := KeyFor(selected, services, draw);
      if NeedsKey(services, selected[0]) {
        assert PassedOver(selected, services, 0);
      } else if Get(services, selected[0]).None? {
        forall j | 0 < j < |selected| ensures !PassedOver(selected, services, j) {
          assert Get(services, selected[0]).None?;
        }
      } else {
        if exists j | 0 <= j < |rest| :: NeedsKey(services, rest[j]) && PassedOver(rest, services, j) {
          var j :| 0 <= j < |rest| && NeedsKey(services, rest[j]) && PassedOver(rest, services, j);
          assert selected[j + 1] == rest[j];
          forall i | 0 <= i < j + 1 ensures Get(services, selected[i]).Some? && !NeedsKey(services, selected[i]) {
            if i > 0 {
              assert selected[i] == rest[i - 1];
            }
          }
          assert PassedOver(selected, services, j + 1);
        }
        if exists j | 0 <= j < |selected| :: NeedsKey(services, selected[j]) && PassedOver(selected, services, j) {
          var j :| 0 <= j < |selected| && NeedsKey(services, selected[j]) && PassedOver(selected, services, j);
          assert j != 0;
          assert rest[j - 1] == selected[j];
          forall i | 0 <= i < j - 1 ensures Get(services, rest[i]).Some? && !NeedsKey(services, rest[i]) {
            assert rest[i] == selected[i + 1];
          }
          assert PassedOver(rest, services, j - 1);
        }
      }
    }
  }

  /** With every selected id in the catalog, no service asking for a key means no key. */
  lemma {:induction false} NoKeyNeeded(selected: seq<string>, services: Services, draw: nat -> nat)
    requires forall i | 0 <= i < |selected| :: Get(services, selected[i]).Some? && !NeedsKey(services, selected[i])
    ensures KeyFor(selected, services, draw) == Ok("")
  {
    if |selected| > 0 {
      NoKeyNeeded(selected[1..], services, draw);
    }
  }

  // ---------------------------------------------------------------------------
  // The .env file

  const SecretPrefix: string := "SECRET_ENCRYPTION_KEY="

  /**
   * The lines of `.env`: a comment, the generation time, a blank line, the six
   * settings, and the secret only when the key is non-empty. The timestamp is an input.
   */
  function EnvLines(s: Compose.Settings, hostIp: string, timestamp: string): (r: seq<string>)
    ensures |r| == if s.encryptionKey == "" then 9 else 10
    ensures forall i | 0 <= i < 9 :: !StartsWith(r[i], SecretPrefix)
    ensures s.encryptionKey != "" ==> r[9] == SecretPrefix + s.encryptionKey
  {
    var fixed := [
      "# Media Server Environment Configuration",
      "# Generated on " + timestamp,
      "",
      "PUID=" + NatToString(s.uid),
      "PGID=" + NatToString(s.gid),
      "TZ=" + s.timezone,
      "DOCKER_DIR=" + Render(s.dockerDir),
      "MEDIA_DIR=" + Render(s.mediaDir),
      "HOST_IP=" + hostIp
    ];
    assert forall i | 0 <= i < 9 :: |fixed[i]| == 0 || fixed[i][0] != 'S';
    if s.encryptionKey != "" then fixed + [SecretPrefix + s.encryptionKey] else fixed
  }

  /** The compose settings `_generate_files` passes on: the key is the one decided above. */
  function FilesSettings(selected: seq<string>, services: Services, uid: nat, gid: nat, dockerDir: Path, mediaDir: Path,
                         timezone: string, draw: nat -> nat): (r: Result<Compose.Settings, FileError>)
    ensures r.Ok? <==> KeyFor(selected, services, draw).Ok?
    ensures r.Ok? ==> r.value.encryptionKey == KeyFor(selected, services, draw).value
  {
    var key :- KeyFor(selected, services, draw);
    Ok(Compose.Settings(uid, gid, dockerDir, mediaDir, timezone, key))
  }

  /**
   * With every selected id in the catalog, `.env` carries a secret line exactly
   * when some selected service asks for a key, and that line holds the very key the
   * compose file receives.
   */
  lemma EnvCarriesKey(selected: seq<string>, services: Services, uid: nat, gid: nat, dockerDir: Path, mediaDir: Path,
                      timezone: string, draw: nat -> nat, hostIp: string, timestamp: string)
    requires forall i | 0 <= i < |selected| :: Get(services, selected[i]).Some?
    ensures FilesSettings(selected, services, uid, gid, dockerDir, mediaDir, timezone, draw).Ok?
    ensures var s := FilesSettings(selected, services, uid, gid, dockerDir, mediaDir, timezone, draw).value;
      var env := EnvLines(s, hostIp, timestamp);
      && ((exists i | 0 <= i < |env| :: StartsWith(env[i], SecretPrefix))
            <==> exists j | 0 <= j < |selected| :: NeedsKey(services, selected[j]))
      && (s.encryptionKey != "" ==> env[|env| - 1] == SecretPrefix + s.encryptionKey)
  {
    KeyGenerated(selected, services, draw);
    assert FilesSettings(selected, services, uid, gid, dockerDir, mediaDir, timezone, draw).Ok?;
    var s := FilesSettings(selected, services, uid, gid, dockerDir, mediaDir, timezone, draw).value;
    var env := EnvLines(s, hostIp, timestamp);
    if exists j | 0 <= j < |selected| :: NeedsKey(services, selected[j]) {
      var j :| 0 <= j < |selected| && NeedsKey(services, selected[j]) && forall i | 0 <= i < j :: !NeedsKey(services, selected[i]) by {
        FirstNeeding(selected, services);
      }
      assert PassedOver(selected, services, j);
      assert StartsWith(env[9], SecretPrefix);
    } else {
      NoKeyNeeded(selected, services, draw);
    }
  }

  /** Some selected service asking for a key has a first one. */
  lemma FirstNeeding(selected: seq<string>, services: Services)
    requires exists j | 0 <= j < |selected| :: NeedsKey(services, selected[j])
    ensures exists j | 0 <= j < |selected| :: NeedsKey(services, selected[j]) && forall i | 0 <= i < j :: !NeedsKey(services, selected[i])
  {
    var j :| 0 <= j < |selected| && NeedsKey(services, selected[j]);
    while exists i | 0 <= i < j :: NeedsKey(services, selected[i])
      invariant 0 <= j < |selected| && NeedsKey(services, selected[j])
      decreases j
    {
      var earlier :| 0 <= earlier < j && NeedsKey(services, selected[earlier]);
      j := earlier;
    }
  }

  // ---------------------------------------------------------------------------
  // Yes/no prompts

  /**
   * The script's `prompt_yes_no` on one answer, stripped and lower-cased: empty
   * means the default, "y" or "yes" means yes, anything else means no. It never asks again.
   */
  function YesNoAnswer(raw: string, default: bool): bool {
    var answer := Lower(Strip(raw));
    if answer == "" then default else answer == "y" || answer == "yes"
  }

  /**
   * The script says yes exactly when the package's prompt would, except to "true"
   * and "1", which only the package accepts; it never re-prompts.
   */
  lemma YesNoEditions(raw: string, default: bool)
    ensures YesNoAnswer(raw, default) <==>
      YesNoDecision(raw, default) == Chosen(true) && Strip(Lower(raw)) != "true" && Strip(Lower(raw)) != "1"
  {
    LowerStrip(raw);
    YesNoClassification(raw, default);
  }

  /** The command the script's `run_command` executes: "sudo" is prepended whenever asked for. */
  function MonolithCommand(command: seq<string>, sudo: bool): (r: seq<string>)
    ensures |r| == |command| + (if sudo then 1 else 0)
    ensures r[|r| - |command|..] == command
  {
    if sudo then ["sudo"] + command else command
  }

  /** The two `run_command`s agree except when already running as root, where only the script still adds "sudo". */
  lemma SudoEditions(command: seq<string>, sudo: bool, euid: int)
    ensures euid != 0 ==> MonolithCommand(command, sudo) == SudoCommand(command, sudo, euid)
    ensures euid == 0 ==> SudoCommand(command, sudo, euid) == command
    ensures euid == 0 && sudo ==> MonolithCommand(command, sudo) == ["sudo"] + command
  { }

  // ---------------------------------------------------------------------------
  // qBittorrent host

  /**
   * `_get_qbittorrent_host`: the other containers reach qBittorrent through
   * "gluetun" when the VPN is enabled and routes it, else under its own name.
   */
  function QbittorrentHost(c: GluetunConfig): (host: string)
    ensures host == "gluetun" <==> c.enabled && c.routeQbittorrent
    ensures host == "gluetun" || host == "qbittorrent"
  {
    if c.enabled && c.routeQbittorrent then "gluetun" else "qbittorrent"
  }

  /** The script and the package's guide name the same host whenever the VPN is on. */
  lemma HostAgreesWithPackage(c: GluetunConfig)
    ensures Guide.VpnOn(Some(c)) ==> QbittorrentHost(c) == Guide.QbitHost(c)
    ensures !Guide.VpnOn(Some(c)) ==> QbittorrentHost(c) == "qbittorrent"
  { }

  // ---------------------------------------------------------------------------
  // Guide: collecting per-service parts

  /**
   * A loop over the selected ids that builds one part per id, where building may
   * raise: all parts in order, or the first error.
   */
  function Collect(ids: seq<string>, f: string -> Result<string, FileError>): (r: Result<seq<string>, FileError>)
    ensures r.Ok? <==> forall k | 0 <= k < |ids| :: f(ids[k]).Ok?
    ensures r.Ok? ==> |r.value| == |ids| && forall k | 0 <= k < |ids| :: f(ids[k]) == Ok(r.value[k])
  {
    if |ids| == 0 then Ok([])
    else match f(ids[0])
      case Err(e) => Err(e)
      case Ok(x) =>
        match Collect(ids[1..], f)
        case Err(e) => Err(e)
        case Ok(xs) =>
          assert forall k | 1 <= k < |ids| :: ids[k] == ids[1..][k - 1];
          Ok([x] + xs)
  }

  /** The error reported is that of the first id whose part cannot be built. */
  lemma {:induction false} CollectFirstError(ids: seq<string>, f: string -> Result<string, FileError>)
    requires Collect(ids, f).Err?
    ensures exists k | 0 <= k < |ids| :: f(ids[k]) == Err(Collect(ids, f).error) && forall j | 0 <= j < k :: f(ids[j]).Ok?
  {
    if f(ids[0]).Ok? {
      var rest := ids[1..];
      CollectFirstError(rest, f);
      var k :| 0 <= k < |rest| && f(rest[k]) == Err(Collect(rest, f).error) && forall j | 0 <= j < k :: f(rest[j]).Ok?;
      assert ids[k + 1] == rest[k];
      forall j | 0 <= j < k + 1 ensures f(ids[j]).Ok? {
        if j > 0 {
          assert ids[j] == rest[j - 1];
        }
      }
    } else {
      assert f(ids[0]) == Err(Collect(ids, f).error);
    }
  }

  // ---------------------------------------------------------------------------
  // Guide: the URL table and the directory tree

  const NoWebUi: string := "(no web UI)"
  const WatchtowerRow: string := "| Watchtower | (auto-updates containers) | - |"

  /** `svc.get("setup_url")` is truthy: present and non-empty. */
  predicate HasSetupUrl(svc: Service) {
    svc.setupUrl.Some? && svc.setupUrl.value != ""
  }

  /** The URL cell: the setup URL with `{host_ip}` filled in, or a note that there is none. */
  function TableUrl(svc: Service, hostIp: string): (url: string)
    ensures !HasSetupUrl(svc) ==> url == NoWebUi
    ensures HasSetupUrl(svc) ==> url == Join(SplitOn(svc.setupUrl.value, Placeholder("host_ip")), hostIp)
  {
    if HasSetupUrl(svc) then
      ReplaceOneKey(svc.setupUrl.value, "host_ip", hostIp);
      ReplacePlaceholders(svc.setupUrl.value, [("host_ip", hostIp)])
    else NoWebUi
  }

  /**
   * One table row: `services[id]`, then `svc["port"]`, then `svc["name"]`. An
   * absent key raises; a null one prints as "None".
   */
  function TableRow(services: Services, hostIp: string, id: string): (r: Result<string, FileError>)
    ensures r.Ok? <==> (Get(services, id).Some?
      && (Get(services, id).value.port.Some? || "port" in Get(services, id).value.nulls)
      && (Get(services, id).value.name.Some? || "name" in Get(services, id).value.nulls))
    ensures r.Ok? ==> var svc := Get(services, id).value;
      var lead := "| " + (if svc.name.Some? then svc.name.value else "None") + " | ";
      var tail := " | " + (if svc.port.Some? then NatToString(svc.port.value) else "None") + " |";
      && |lead| + |tail| <= |r.value|
      && r.value[..|lead|] == lead
      && r.value[|r.value| - |tail|..] == tail
      && r.value[|lead|..|r.value| - |tail|] == TableUrl(svc, hostIp)
  {
    match Get(services, id)
    case None => Err(UnknownService(id))
    case Some(svc) =>
      if PortShown(svc).None? then Err(MissingField(id, "port"))
      else if Shown(svc.name, svc, "name").None? then Err(MissingField(id, "name"))
      else
        var lead := "| " + Shown(svc.name, svc, "name").value + " | ";
        var tail := " | " + PortShown(svc).value + " |";
        var row := lead + TableUrl(svc, hostIp) + tail;
        assert row[|lead|..|row| - |tail|] == TableUrl(svc, hostIp);
        Ok(row)
  }

  /** The service table: a row per selected id, in order, and the Watchtower row last. */
  function UrlTable(selected: seq<string>, services: Services, hostIp: string): (r: Result<seq<string>, FileError>)
    ensures r.Ok? <==> forall k | 0 <= k < |selected| :: TableRow(services, hostIp, selected[k]).Ok?
    ensures r.Ok? ==> |r.value| == |selected| + 1 && r.value[|selected|] == WatchtowerRow
    ensures r.Ok? ==> forall k | 0 <= k < |selected| :: TableRow(services, hostIp, selected[k]) == Ok(r.value[k])
  {
    var rows :- Collect(selected, id => TableRow(services, hostIp, id));
    Ok(rows + [WatchtowerRow])
  }

  /** The directory tree for the footer: each selected id with its config directory. */
  function ServiceDirs(selected: seq<string>): (r: seq<string>)
    ensures |r| == 2 * |selected|
    ensures forall k | 0 <= k < |selected| :: r[2 * k] == "├── " + selected[k] + "/" && r[2 * k + 1] == "│   └── config/"
  {
    if |selected| == 0 then []
    else ["├── " + selected[0] + "/", "│   └── config/"] + ServiceDirs(selected[1..])
  }

  // ---------------------------------------------------------------------------
  // Guide: one service section

  /** The two placeholders a section fills in, in this order. */
  function Replacements(hostIp: string, qbitHost: string): seq<(string, string)> {
    [("host_ip", hostIp), ("qbittorrent_host", qbitHost)]
  }

  /** `enumerate(steps, first)`: each step numbered, with its placeholders filled in. */
  function NumberedSteps(steps: seq<string>, replacements: seq<(string, string)>, first: nat): (r: seq<string>)
    ensures |r| == |steps|
    ensures forall k | 0 <= k < |steps| :: r[k] == NatToString(first + k) + ". " + ReplacePlaceholders(steps[k], replacements)
  {
    if |steps| == 0 then []
    else ([NatToString(first) + ". " + ReplacePlaceholders(steps[0], replacements)]
          + NumberedSteps(steps[1..], replacements, first + 1))
  }

  const SectionEnd: seq<string> := ["", "---", ""]

  /** The URL lines of a section: the filled-in setup URL and a blank, when there is one. */
  function UrlLines(svc: Service, replacements: seq<(string, string)>): (r: seq<string>)
    ensures |r| == if HasSetupUrl(svc) then 2 else 0
  {
    if HasSetupUrl(svc) then ["**URL:** " + ReplacePlaceholders(svc.setupUrl.value, replacements), ""] else []
  }

  /** The opening four lines: the title, a blank, the description, a blank. */
  function Opening(name: string, description: string): seq<string> {
    ["### " + name, "", "**Description:** " + description, ""]
  }

  /**
   * `_build_service_section`: the title and description (which raise when the key
   * is absent and print "None" when it is null), the URL when there is one, the
   * numbered steps, and the closing rule.
   */
  function SectionLines(id: string, svc: Service, hostIp: string, qbitHost: string): (r: Result<seq<string>, FileError>)
    ensures r.Ok? <==> (svc.name.Some? || "name" in svc.nulls) && (svc.description.Some? || "description" in svc.nulls)
    ensures r.Ok? ==> |r.value| == 9 + |svc.setupSteps| + (if HasSetupUrl(svc) then 2 else 0)
  {
    if Shown(svc.name, svc, "name").None? then Err(MissingField(id, "name"))
    else if Shown(svc.description, svc, "description").None? then Err(MissingField(id, "description"))
    else
      var replacements := Replacements(hostIp, qbitHost);
      Ok(Opening(Shown(svc.name, svc, "name").value, Shown(svc.description, svc, "description").value) + UrlLines(svc, replacements)
         + [Guide.StepsHeading, ""] + NumberedSteps(svc.setupSteps, replacements, 1) + SectionEnd)
  }

  /**
   * A built section starts with the service's title and ends with the closing rule,
   * and its steps, numbered from 1 in order, sit right before that rule.
   */
  lemma SectionShape(id: string, svc: Service, hostIp: string, qbitHost: string)
    requires SectionLines(id, svc, hostIp, qbitHost).Ok?
    ensures var lines := SectionLines(id, svc, hostIp, qbitHost).value;
      var steps := svc.setupSteps;
      && lines[0] == "### " + (if svc.name.Some? then svc.name.value else "None")
      && lines[|lines| - 3..] == SectionEnd
      && forall k | 0 <= k < |steps| ::
           lines[|lines| - 3 - |steps| + k] == NatToString(1 + k) + ". " + ReplacePlaceholders(steps[k], Replacements(hostIp, qbitHost))
  {
    var replacements := Replacements(hostIp, qbitHost);
    var head := Opening(Shown(svc.name, svc, "name").value, Shown(svc.description, svc, "description").value) + UrlLines(svc, replacements) + [Guide.StepsHeading, ""];
    var numbered := NumberedSteps(svc.setupSteps, replacements, 1);
    SectionSplit(head, numbered, SectionEnd);
  }

  /** Positions in a three-part list, counted from each end. */
  lemma SectionSplit(head: seq<string>, numbered: seq<string>, tail: seq<string>)
    requires |head| > 0
    ensures var lines := head + numbered + tail;
      && lines[0] == head[0]
      && lines[|lines| - |tail|..] == tail
      && forall k | 0 <= k < |numbered| :: lines[|lines| - |tail| - |numbered| + k] == numbered[k]
  {
    var lines := head + numbered + tail;
    assert lines[|lines| - |tail|..] == tail;
  }

  /** The section of one selected id, joined into text; the id must be in the catalog. */
  function SectionFor(services: Services, hostIp: string, qbitHost: string, id: string): (r: Result<string, FileError>)
    ensures r.Ok? <==> Get(services, id).Some? && SectionLines(id, Get(services, id).value, hostIp, qbitHost).Ok?
  {
    match Get(services, id)
    case None => Err(UnknownService(id))
    case Some(svc) =>
      var lines :- SectionLines(id, svc, hostIp, qbitHost);
      Ok(Join(lines, "\n"))
  }

  // ---------------------------------------------------------------------------
  // Guide: the whole text

  /**
   * `GuideGenerator.generate`. Rendering the header and footer templates is outside
   * the model: `header` receives the joined service table (the timestamp, user and
   * paths are captured by it), `footer` the joined directory tree.
   */
  function GuideText(selected: seq<string>, services: Services, hostIp: string, qbitHost: string,
                     header: string -> string, footer: string -> string): (r: Result<string, FileError>)
    ensures r.Ok? <==>
      && UrlTable(selected, services, hostIp).Ok?
      && forall k | 0 <= k < |selected| :: SectionFor(services, hostIp, qbitHost, selected[k]).Ok?
    ensures r.Ok? ==>
      var top := header(Join(UrlTable(selected, services, hostIp).value, "\n"));
      var bottom := footer(Join(ServiceDirs(selected), "\n"));
      && StartsWith(r.value, top)
      && |bottom| <= |r.value| && r.value[|r.value| - |bottom|..] == bottom
  {
    var table :- UrlTable(selected, services, hostIp);
    var sections :- Collect(selected, id => SectionFor(services, hostIp, qbitHost, id));
    var top := header(Join(table, "\n"));
    var bottom := footer(Join(ServiceDirs(selected), "\n"));
    var text := top + Join(sections, "\n") + "\n" + bottom;
    assert text[..|top|] == top;
    assert text[|text| - |bottom|..] == bottom;
    Ok(text)
  }

  // ---------------------------------------------------------------------------
  // Walkthrough order

  /** `order_priority` of `_interactive_walkthrough`. */
  const WalkthroughPriority: seq<string> := [
    "gluetun", "qbittorrent", "prowlarr", "jackett", "radarr", "sonarr", "lidarr", "mylar3",
    "bazarr", "audiobookshelf", "jellyfin", "plex", "emby", "seerr", "tautulli", "nzbget",
    "sabnzbd", "homarr", "flaresolverr"
  ]

  /**
   * The script walks through the same services as the package's priority list,
   * with the two indexers (positions 6 and 7 there) moved up right after the
   * download client.
   */
  lemma WalkthroughReorders()
    ensures WalkthroughPriority
      == SetupOrderPriority[..2] + SetupOrderPriority[6..8] + SetupOrderPriority[2..6] + SetupOrderPriority[8..]
  { }

  /** Exchanging two inner blocks of a list that repeats nothing repeats nothing. */
  lemma SwapDistinct(a: seq<string>, b: seq<string>, c: seq<string>, d: seq<string>)
    requires Distinct(a + b + c + d)
    ensures Distinct(a + c + b + d)
  {
    var before := a + b + c + d;
    var after := a + c + b + d;
    assert multiset(before) == multiset(after);
    forall i, j | 0 <= i < j < |after| ensures after[i] != after[j] {
      DistinctCount(before, after[i]);
      assert after == after[..i] + [after[i]] + after[i + 1..j] + [after[j]] + after[j + 1..];
    }
  }

  /** An element of a list that repeats nothing occurs at most once. */
  lemma {:induction false} DistinctCount(s: seq<string>, x: string)
    requires Distinct(s)
    ensures multiset(s)[x] <= 1
  {
    if |s| > 0 {
      assert s == [s[0]] + s[1..];
      DistinctCount(s[1..], x);
      assert s[0] !in s[1..];
    }
  }

  /** The script's priority list names each service once. */
  lemma WalkthroughPriorityDistinct()
    ensures Distinct(WalkthroughPriority)
  {
    var p := SetupOrderPriority;
    WalkthroughReorders();
    SetupOrderShape();
    assert p == p[..2] + p[2..6] + p[6..8] + p[8..];
    SwapDistinct(p[..2], p[2..6], p[6..8], p[8..]);
  }

  /** `[s for s in priority if s in selected]`. */
  function InPriority(priority: seq<string>, selected: seq<string>): (r: seq<string>)
    ensures forall x :: x in r <==> x in priority && x in selected
    ensures Distinct(priority) ==> Distinct(r)
  {
    if |priority| == 0 then []
    else (if priority[0] in selected then [priority[0]] else []) + InPriority(priority[1..], selected)
  }

  /** Every entry of `r` is in `priority`, and `r` follows its order. */
  predicate OrderedBy(priority: seq<string>, r: seq<string>) {
    && (forall i | 0 <= i < |r| :: r[i] in priority)
    && forall i, j | 0 <= i < j < |r| :: Guide.IndexOf(priority, r[i]) < Guide.IndexOf(priority, r[j])
  }

  /** The filtered ids keep the priority list's order. */
  lemma {:induction false} InPriorityOrdered(priority: seq<string>, selected: seq<string>)
    requires Distinct(priority)
    ensures OrderedBy(priority, InPriority(priority, selected))
  {
    if |priority| > 0 {
      var rest := priority[1..];
      InPriorityOrdered(rest, selected);
      var t := InPriority(rest, selected);
      assert priority == [priority[0]] + rest;
      OrderedCons(priority[0], rest, t);
      if priority[0] in selected {
        OrderedFront(priority[0], rest, t);
      }
    }
  }

  /** Putting one more entry in front of the list keeps the order of the others. */
  lemma OrderedCons(x: string, rest: seq<string>, t: seq<string>)
    requires x !in rest && OrderedBy(rest, t)
    ensures OrderedBy([x] + rest, t)
  {
    var priority := [x] + rest;
    assert priority[1..] == rest;
    forall i | 0 <= i < |t| ensures Guide.IndexOf(priority, t[i]) == 1 + Guide.IndexOf(rest, t[i]) {
      assert t[i] in rest;
    }
  }

  /** The entry in front, followed by ids from the rest, is in order. */
  lemma OrderedFront(x: string, rest: seq<string>, t: seq<string>)
    requires OrderedBy([x] + rest, t) && x !in rest && forall i | 0 <= i < |t| :: t[i] in rest
    ensures OrderedBy([x] + rest, [x] + t)
  {
    var priority := [x] + rest;
    var r := [x] + t;
    assert Guide.IndexOf(priority, x) == 0;
    forall i, j | 0 <= i < j < |r| ensures Guide.IndexOf(priority, r[i]) < Guide.IndexOf(priority, r[j]) {
      assert r[j] == t[j - 1] && r[j] != x;
      if i > 0 {
        assert r[i] == t[i - 1];
      }
    }
  }

  /**
   * `setup_order`: the selected ids the priority list names, in its order, then the
   * other selected ids in the order they were selected, each exactly once.
   */
  method WalkthroughOrder(selected: seq<string>) returns (order: seq<string>)
    ensures Distinct(order)
    ensures forall x :: x in order <==> x in selected
    ensures var head := InPriority(WalkthroughPriority, selected);
      && |head| <= |order| && order[..|head|] == head
      && (forall i | |head| <= i < |order| :: order[i] !in WalkthroughPriority)
      && forall i, j | |head| <= i < j < |order| :: Guide.IndexOf(selected, order[i]) < Guide.IndexOf(selected, order[j])
  {
    WalkthroughPriorityDistinct();
    var head := InPriority(WalkthroughPriority, selected);
    var rest: seq<string> := [];
    var t := 0;
    while t < |selected|
      invariant 0 <= t <= |selected|
      invariant Distinct(rest)
      invariant forall x :: x in rest <==> x in selected[..t] && x !in head
      invariant forall i | 0 <= i < |rest| :: rest[i] in selected && Guide.IndexOf(selected, rest[i]) < t
      invariant forall i, j | 0 <= i < j < |rest| :: Guide.IndexOf(selected, rest[i]) < Guide.IndexOf(selected, rest[j])
    {
      var s := selected[t];
      assert selected[..t + 1] == selected[..t] + [s];
      if s !in head + rest {
        assert s !in selected[..t];
        assert Guide.IndexOf(selected, s) == t;
        rest := rest + [s];
      }
      t := t + 1;
    }
    assert selected[..t] == selected;
    DisjointDistinct(head, rest);
    order := head + rest;
    assert order[|head|..] == rest;
  }

  /** Two lists that repeat nothing and share nothing repeat nothing together. */
  lemma DisjointDistinct(a: seq<string>, b: seq<string>)
    requires Distinct(a) && Distinct(b) && forall i | 0 <= i < |b| :: b[i] !in a
    ensures Distinct(a + b)
  {
    var c := a + b;
    forall i, j | 0 <= i < j < |c| ensures c[i] != c[j] {
      if i < |a| && j >= |a| {
        assert c[j] == b[j - |a|];
      }
    }
  }
}
