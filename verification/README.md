# Media-server setup wizard: the decide-and-render core in Dafny

The wizard asks a user which media services to run. These include qBittorrent,
the *arr applications, media servers and an optional Gluetun VPN sidecar. It then
writes three files: a Docker Compose manifest, a `.env` file and a Markdown setup
guide. This project models the pure part of that work: the answers and the service
catalog go in, and the lines of those files come out. It also models the small
validators and classifiers the wizard and its health checker rely on. User answers,
command output and random draws are inputs. Nothing is prompted, run or written.

Modules follow the program's files:

- `Wrappers`: `Option` and `Result`.
- `Text`: the string operations the program uses, over ASCII. These are
  `split`, `join`, `replace`, `lower`, `upper`, `strip`, `title`, `str(n)` and
  `int(s)`.
- `OrderedMap`: Python dictionaries as insertion-ordered `seq<(K, V)>`.
- `Paths`: `pathlib` joining and rendering.
- `Utils`: `src/utils.py`.
- `Constants`: `src/constants.py`. This is the provider table, the optional
  credential fields, the setup priority list and the fallback subnets.
- `Catalog`: `src/template_loader.py`.
- `VpnConfig`: `src/vpn_config.py` and the `setup.py` variant of
  `get_environment_vars`.
- `Compose`, `ComposeBlocks`, `ComposeProperties`: `src/compose_generator.py` and
  the `setup.py` variant. The two editions are `Constants.Edition`: `Package` for
  `src/` and `Monolith` for `setup.py`.
- `Guide`: `src/file_generator.py`.
- `Health`: `src/health_checker.py`.
- `SystemValidators`: `src/system_validators.py`.
- `Monolith`: the pieces only `setup.py` has. These are its guide generator, key
  decision, `.env` lines, qBittorrent host and walkthrough order.

## Model

| member | source | states |
|---|---|---|
| Compose.ServiceBlock | src/compose_generator.py:159-235 | A service block fails (KeyError) exactly when the image is missing, or when a service that is not delegated has no port. A built block opens with the service's entry header and ends with a blank line. |
| Compose.ServiceVolumeLines | src/compose_generator.py:204-218 | One volume line per entry of the three volume maps, and each line is a list item nested in the service. |
| Compose.ExtraPortLines | src/compose_generator.py:223-225 | Every extra port is published twice, and each line is a nested list item. |
| Compose.LoopIds | src/compose_generator.py:61-63 | The service loop visits exactly the selected ids other than "gluetun". |
| ComposeBlocks.ServiceBlockDelegation | src/compose_generator.py:179-231 | A delegated block has `network_mode: service:gluetun` and `depends_on`, with no `ports:` and no `networks:`. A block that is not delegated is the other way round. |
| ComposeBlocks.PortCount | src/compose_generator.py:220-231 | A service that is not delegated gets exactly 1 + 2·(extra ports) port lines, followed by the `networks: - media-network` lines. |
| ComposeBlocks.GluetunPortsRoute | src/compose_generator.py:130-151 | Gluetun publishes its own ports first and then, exactly when qBittorrent is delegated, qBittorrent's ports. Its own list is never empty. |
| ComposeBlocks.RehomedPortsMatch | src/compose_generator.py:145-151 | The ports Gluetun publishes for qBittorrent match, one for one, the ports qBittorrent would publish itself, with 8080 as the default main port. Each line is the same item with a comment appended. |
| ComposeBlocks.EnvLineValues | src/compose_generator.py:186-197 | PUID, PGID, TZ and SECRET_ENCRYPTION_KEY get the uid, gid, timezone and key. Any other entry is written verbatim. |
| ComposeBlocks.EnvironmentHeaderPresent | src/compose_generator.py:199-201 | `environment:` appears exactly when the service lists some environment entry. |
| ComposeBlocks.VolumesHeaderPresent | src/compose_generator.py:216-218 | `volumes:` appears exactly when one of the three volume maps is non-empty. |
| ComposeBlocks.ServiceVolumeOrder | src/compose_generator.py:204-214 | Config volumes come first, under `docker_dir/id`. Media volumes follow, under `media_dir`. Extra volumes come last, with the host path unchanged. Every line is `host:container`, in map order. |
| ComposeBlocks.MediaRootVolume | tests/conftest.py:65 | A media volume named "." mounts the media directory itself. |
| ComposeBlocks.ConfigVolumePath | src/compose_generator.py:205-207 | A plain volume name lands in the service's own directory under `docker_dir`. |
| ComposeBlocks.EditionsAgreeUndelegated | setup.py:908-984 | Without delegation, `setup.py` writes the same service block as the package. |
| ComposeBlocks.EditionsDelegated | setup.py:928-932 | Under delegation, the two editions' blocks differ only in the quoting of the `network_mode` line. |
| ComposeBlocks.WatchtowerEditions | setup.py:986-1001 | The package's Watchtower block is `setup.py`'s block followed by one blank line. |
| ComposeProperties.ServiceBlocksShape | src/compose_generator.py:61-82 | A successful service loop yields one block per visited id, and each block is built with that id's own delegation flag. |
| ComposeProperties.ServiceBlocksSucceed | src/compose_generator.py:61-82 | The service loop succeeds exactly when every visited id is in the catalog, has an image, and has a port unless it is the delegated qBittorrent. |
| ComposeProperties.GenerateSucceeds | src/compose_generator.py:43-90 | A manifest is produced exactly when the due Gluetun entry and every other selected service can be built. A selected id missing from the catalog yields an error rather than a partial manifest. |
| ComposeProperties.ServiceBlockNested | src/compose_generator.py:172-235 | Every line after a service block's header is indented inside that entry. |
| ComposeProperties.GluetunBodyNested | src/compose_generator.py:92-157 | Every line after the Gluetun block's header is indented inside that entry. |
| ComposeProperties.ServiceBlockHeaders | src/compose_generator.py:172-177 | A service block has exactly one entry header, its own. |
| ComposeProperties.GenerateParts | src/compose_generator.py:32-90 | A manifest is, in order, the preamble, the Gluetun part, the service blocks, Watchtower and the network section. |
| ComposeProperties.ManifestEntries | src/compose_generator.py:42-88 | The manifest's entries are, in order: Gluetun when due, then every other selected service in selection order, then Watchtower, then the single network. |
| ComposeProperties.GluetunFirstAndOnce | src/compose_generator.py:43-63 | With the VPN enabled and "gluetun" selected, the Gluetun entry is the first entry and occurs exactly once. Otherwise there is none. |
| ComposeProperties.SelectedServicesPresent | src/compose_generator.py:61-82 | Every selected service other than Gluetun has its entry in the manifest. |
| ComposeProperties.ManifestFrame | src/compose_generator.py:32-90 | For any selection, the manifest opens with "---", "services:", "". It closes with the Watchtower block and a `networks:` section declaring only `media-network` with the bridge driver. |
| ComposeProperties.DanglingDelegation | src/compose_generator.py:35-47 | When qBittorrent is routed through the VPN but "gluetun" is not selected, there is no Gluetun entry, yet qBittorrent still points at it. |
| ComposeProperties.DelegatedNetworkMode | src/compose_generator.py:35-82 | Whenever delegation is on, the manifest carries the `network_mode` line. |
| ComposeProperties.WizardNoDangling | src/setup_core.py:197-206 | After the wizard's VPN step, delegation never dangles: a routed qBittorrent implies the Gluetun block is due. The selection gains "gluetun" only when the VPN was configured. |
| ComposeProperties.WizardManifest | src/setup_core.py:197-206 | With the wizard's selection, a routed qBittorrent always finds the Gluetun entry first in the manifest. |
| Constants.ProvidersWellFormed | src/constants.py:13-85 | Every provider supports a protocol and lists fields for each protocol it supports. A provider without WireGuard lists no WireGuard fields. Every provider has its descriptive fields and is keyed by its own `provider_name`. |
| Constants.ProviderTableShape | src/constants.py:13-85 | There are seven providers with distinct keys and none is "custom", so menu choice 8 is the manual entry. |
| Constants.WireguardUrls | src/constants.py:13-85 | Only ProtonVPN has a separate WireGuard credentials URL. |
| Constants.SetupOrderShape | src/constants.py:91-111 | The priority list has 19 distinct entries and starts with gluetun, then qbittorrent. |
| Constants.CommonSubnetsValid | src/constants.py:114-119 | Every fallback Docker subnet passes the subnet syntax check. |
| Utils.CidrValid | src/utils.py:271-291 | `a.b.c.d/p` is accepted exactly when every octet is at most 255 and the prefix is at most 32. |
| Utils.SubnetJoin | src/utils.py:271-291 | A quad and a prefix without slashes, joined by "/", are accepted exactly when the quad is a dotted quad and the prefix is in 0..32. |
| Utils.DottedQuadJoin | src/utils.py:279-284 | Four dot-free pieces joined by dots form a dotted quad exactly when each piece is an integer in 0..255. |
| Utils.SubnetExampleLan | tests/test_utils.py:384-389 | "192.168.1.0/24" is accepted. |
| Utils.SubnetExampleDefaultRoute | tests/test_utils.py:384-389 | "0.0.0.0/0" is accepted. |
| Utils.SubnetExampleWidePrefix | tests/test_utils.py:391-405 | A /33 prefix is rejected. |
| Utils.SubnetExampleBadOctet | tests/test_utils.py:391-405 | An octet of 256 is rejected. |
| Utils.SubnetExampleNoSlash | src/utils.py:273-274 | Empty text and text without a slash are rejected before anything is parsed. |
| Utils.SubnetExampleEmptyPrefix | tests/test_utils.py:391-405 | A trailing slash is rejected, because `int("")` raises. |
| Utils.SubnetExampleNegativePrefix | tests/test_utils.py:391-405 | "/-1" parses but is out of range. |
| Utils.SubnetExampleThreeOctets | tests/test_utils.py:391-405 | Three octets are rejected. |
| Utils.ReplaceOneKey | src/utils.py:263-268 | With one key, the result is the text split on `{key}` and joined with the value: every occurrence is replaced and nothing else changes. |
| Utils.ReplaceAppend | src/utils.py:265-268 | Replacement goes key by key in map order: a later key acts on the result of the earlier ones. |
| Utils.ReplaceNoPlaceholders | tests/test_utils.py:416-431 | Text holding none of the keys' placeholders comes back unchanged, so a placeholder for a missing key stays literal. |
| Utils.ReplaceExtraKey | tests/test_utils.py:425-431 | Adding a key whose placeholder does not occur changes nothing. |
| Utils.ReplaceEmpty | tests/test_utils.py:433-436 | Empty text stays empty. |
| Utils.ReplaceChains | src/utils.py:265-268 | A value holding a later key's placeholder is substituted again, but not when that key comes earlier. |
| Utils.RandomKey | src/utils.py:131-135 | A key of the requested length whose characters are the alphabet characters chosen by the random draws. |
| Utils.GenerateEncryptionKey | src/utils.py:131-135 | 32 characters, all in [A-Za-z0-9]. |
| Utils.EveryAlnumKeyPossible | src/utils.py:131-135 | Every alphanumeric string is the key of some draw, so length and alphabet are the whole promise. |
| Utils.SudoCommand | src/utils.py:121-128 | "sudo" is prepended exactly when it is asked for and the effective uid is not 0. The command itself is unchanged. |
| Utils.YesNoClassification | src/utils.py:85-98 | After lower-casing and stripping: empty gives the default, {y, yes, true, 1} gives yes, {n, no, false, 0} gives no, and anything else asks again. This holds in both directions. |
| Utils.Ask | src/utils.py:85-98 | The prompt loop reads answers until one decides. Every answer before the deciding one asked again. If the answers run out undecided, every answer asked again. |
| Utils.YesNoExamples | tests/test_utils.py:123-162 | " YES " is yes, "No" is no, an empty answer is the default, and "maybe" asks again. |
| Catalog.ByCategoryGet | src/template_loader.py:62-73 | The list under a category is exactly that category's ids in catalog order. A service without the key is filed under "other", and one with a null category under Python's `None` key. A category with no services has no list. |
| Catalog.ByCategoryKeys | src/template_loader.py:66-71 | Categories appear in the order each is first seen in the catalog. |
| Catalog.IdsInMembers | src/template_loader.py:66-71 | An id is in a category's list exactly when the catalog files it under that category. |
| Catalog.GroupOfService | src/template_loader.py:62-73 | In a catalog where each id appears once, every service is in exactly one list: its own category's. |
| Catalog.MissingFields | src/template_loader.py:79-87 | The fields reported missing are exactly the required fields whose key is absent. A key present with a null value counts as present, as `not in` does. |
| Catalog.MissingNone | src/template_loader.py:79-87 | A service lacks no required field exactly when it has the name, description, category and image keys, null or not. |
| Catalog.ValidateEmpty | src/template_loader.py:75-89 | The check reports nothing exactly when every service is complete. |
| Catalog.ValidateReports | src/template_loader.py:75-89 | Every missing field of every service has its issue. |
| Catalog.ValidateSound | src/template_loader.py:75-89 | Every issue names a catalog service and a required field that service lacks. |
| Catalog.LoadYamlData | src/template_loader.py:32-50 | Once loaded, nothing is re-read. A successful load marks the loader loaded and needs a readable file whose document is a mapping. |
| Catalog.LoadOnce | src/template_loader.py:32-35 | After a successful load, every later load returns the same data whatever the file then holds. An absent section loads as empty, and a null one as `None`. |
| Catalog.LoadOutcomes | src/template_loader.py:37-50 | A missing file raises FileNotFoundError. An unreadable or unparsable file raises RuntimeError. A document that is not a mapping gives the no-mapping error. A mapping without sections loads as empty, and one with null sections loads them as `None`. |
| Catalog.SectionValue | src/template_loader.py:45-46 | `data.get(key, {})`: an absent section gives the empty mapping, a null one gives `None`, and a given one gives its value. |
| Catalog.ServiceItems | src/template_loader.py:67 | Iterating the services fails exactly when the section was null, and otherwise yields the loaded catalog. |
| Catalog.NullServicesRaise | src/template_loader.py:45-46 | A null `services` key loads without error and `get_services` returns `None`, but iterating it raises. An absent key gives an empty catalog. |
| Catalog.GetServices | src/template_loader.py:52-55 | Loads first, then returns the cached services, `None` when the section was null. An already loaded loader is returned as is. |
| VpnConfig.GetBase | src/vpn_config.py:277-281 | The base map names the provider's `provider_name` and the protocol, and nothing else. |
| VpnConfig.PutNonEmptyCredential | src/vpn_config.py:284-286 | A credential key ends up with its value exactly when that value is non-empty. |
| VpnConfig.EnvironmentEmpty | src/vpn_config.py:274-275 | The map is empty exactly when the VPN is disabled or no provider from the table was chosen, which covers both None and "custom". |
| VpnConfig.EnvironmentContents | src/vpn_config.py:272-296 | Every key's value: the provider and protocol; each credential exactly when non-empty; SERVER_COUNTRIES exactly when given; FIREWALL_OUTBOUND_SUBNETS exactly when given, and only in the package. |
| VpnConfig.MonolithEnvironment | setup.py:616-636 | `setup.py`'s map is the package's map without FIREWALL_OUTBOUND_SUBNETS. |
| VpnConfig.ProviderMenu | src/vpn_config.py:86-109 | Choice k in 1..n picks the k-th provider in table order, and n+1 picks the manual entry. Any other number asks again. |
| VpnConfig.ProviderMenuDefaults | src/vpn_config.py:86-109 | An empty answer picks the first provider, and a non-number asks again. |
| VpnConfig.ProviderChoiceInTable | src/vpn_config.py:86-109 | A menu choice is always a provider from the table or the manual entry. |
| VpnConfig.SelectProtocol | src/vpn_config.py:111-141 | The protocol chosen for a table provider is one the provider supports. |
| VpnConfig.ProtocolChoice | src/vpn_config.py:111-141 | Without a table provider the protocol is OpenVPN. A provider supporting both takes the answer ("1" is OpenVPN), which `setup.py` strips first. WireGuard-only gives WireGuard; anything else gives OpenVPN. |
| VpnConfig.CollectComplete | src/vpn_config.py:168-209 | After collection every field of the protocol has an entry, and only an optional field may be empty. |
| VpnConfig.CollectCredentials | src/vpn_config.py:143-209 | Nothing is asked for without a table provider. |
| VpnConfig.SubnetDecision | src/vpn_config.py:242-254 | The result is the stripped answer or the detected subnet. A kept answer differing from the detected subnet is valid. |
| VpnConfig.SubnetAlwaysValid | src/vpn_config.py:242-254 | A valid detected subnet makes every outcome valid, and a valid answer is always kept. |
| VpnConfig.ProviderSteps | src/vpn_config.py:55-65 | The manual entry skips protocol, credentials and server location. |
| VpnConfig.ProviderStepsOutcome | src/vpn_config.py:55-65 | For a well-formed table provider, the protocol is supported and its credentials are complete. |
| VpnConfig.NetworkStep | src/vpn_config.py:227-254 | Only the package asks for the Docker subnet. Its result is the detected subnet or a valid one. |
| VpnConfig.ConfigureOutcome | src/vpn_config.py:38-74 | A declined VPN leaves the fresh state. An enabled VPN has a provider. The manual entry has OpenVPN and no credentials or countries. A table provider is supported and has complete credentials. The subnet rule holds per edition. Each edition reads answers its own way. |
| VpnConfig.MonolithStripsAnswers | setup.py:262-278 | `setup.py` strips every answer except a password, key or secret field, which it reads as typed. So each of its decisions equals the package's decision on the stripped answer, or on the raw answer for a sensitive field. |
| VpnConfig.PlainFieldRead | setup.py:546-580 | A field that is not sensitive is read stripped in `setup.py` and as typed in the package. The answer asks again exactly when it is blank and the field is required. |
| VpnConfig.SpacedProtocolExample | setup.py:497-507 | " 1 " picks OpenVPN in `setup.py`, while the package asks again. |
| VpnConfig.BlankUserExample | setup.py:571-578 | An answer of spaces for the VPN user asks again in `setup.py`, while the package keeps it as typed. |
| VpnConfig.SpacedCredentialExamples | setup.py:551-575 | In `setup.py`, " alice " for the user is kept as "alice", and " pw " for the password is kept with its spaces. |
| Guide.FilesKey | src/file_generator.py:61-64 | A key, 32 alphanumeric characters, is made exactly when "homarr" is selected. Otherwise the key is "". |
| Guide.SortBy | src/file_generator.py:186-191 | Sorting keeps exactly the selected ids, each as often as selected. |
| Guide.GuideOrder | src/file_generator.py:184-191 | The guide order is a permutation of the selection sorted by priority index. Ids with the same key keep selection order. Unknown ids (key 999) come after all known ids. |
| Guide.SortStable | src/file_generator.py:186-191 | For every key, the ids with that key appear in the same order as in the selection. |
| Guide.PortText | src/file_generator.py:239 | A port renders as digits that read back as the port, a null port as "None", and an absent one as "Unknown". |
| Guide.PortInfo | src/file_generator.py:241-250 | The port text gains " (accessed via Gluetun)" exactly for qBittorrent with the VPN enabled and routing it. |
| Guide.QbitHost | src/file_generator.py:272-274 | The host is "gluetun" exactly when qBittorrent is routed, else "qbittorrent". |
| Guide.StepText | src/file_generator.py:266-277 | With the VPN on, every `{qbittorrent_host}` is replaced by the host. With the VPN off or no configuration, the step is unchanged. |
| Guide.AccessLine | src/file_generator.py:255-260 | The URL is the setup URL verbatim when it is non-empty and not "null", else `http://localhost:` followed by the port text. |
| Guide.ServiceSectionShape | src/file_generator.py:227-299 | A section opens with its numbered title, the access line and the port line. The steps, notes and warnings blocks appear exactly when non-empty. The section ends with "---", "". |
| Guide.SectionNumbering | src/file_generator.py:193-203 | There is one section title per id found in the catalog. Each is numbered by the id's position in the sorted list, so a missing id is skipped but keeps its number. |
| Guide.VpnSectionContents | src/file_generator.py:301-353 | Provider and protocol lines appear exactly when a table provider is set, countries exactly when also given. The *arr host note appears exactly when qBittorrent is routed. |
| Guide.TroubleshootingBlocks | src/file_generator.py:355-423 | The common and general parts are always present. The qBittorrent block appears exactly when qBittorrent is selected. The *arr block appears exactly when Sonarr, Radarr or Lidarr is. The VPN block appears exactly when Gluetun is. |
| Guide.SetupGuide | src/file_generator.py:149-225 | The guide starts with the header and ends with the footer, and is long enough to hold the section heading, the introduction and both fixed troubleshooting parts. |
| Guide.GuideOutline | src/file_generator.py:149-225 | Between header and footer, the level-three titles are the numbered titles of the selected services in priority order, then "Common Issues" and "General Debugging". The chapters are service configuration, VPN configuration exactly when the VPN is on, and troubleshooting. |
| Health.DetermineOverallStatus | src/health_checker.py:571-597 | Critical exactly when the daemon is not known to run, a service is not known to run, or a VPN report says disconnected. Otherwise a warning exactly when running services report more than three issues, else healthy. |
| Health.StoppedIssuesIgnored | src/health_checker.py:576-586 | A stopped service's issues never count as warnings; it counts as critical instead. |
| Health.AnalyzeContainerLogs | src/health_checker.py:458-518 | A failed log command gives a healthy, empty analysis. Errors and warnings hold no duplicates, and the log is healthy exactly when there are no errors. |
| Health.ScanErrors | src/health_checker.py:493-502 | A text is an error exactly when some line classified as an error strips to it. |
| Health.ScanWarnings | src/health_checker.py:503-511 | A text is a warning exactly when some non-error line with a warning pattern strips to it. |
| Health.ScanHealthy | src/health_checker.py:493-502 | The analysis is healthy exactly when no line is an error. |
| Health.ErrorNotWarning | src/health_checker.py:503-504 | An error line is recorded as an error and never also as a warning. |
| Health.OnlyLastFifty | src/health_checker.py:486 | Only the last fifty lines count: earlier lines do not matter. |
| Health.LastLines | src/health_checker.py:486 | The result is the last min(n, length) lines, in order. |
| Health.HealthStatusAccepted | src/health_checker.py:409-415 | Acceptance requires a zero exit status. |
| Health.HealthStatusPadded | src/health_checker.py:409-415 | Acceptance holds exactly when the exit status is zero and stdout is "healthy" or nothing, with any whitespace around it. |
| Health.HealthStatusExamples | src/health_checker.py:409-415 | "healthy", "" and "healthy\n" are accepted. "unhealthy" and a failed command are not. |
| SystemValidators.IsValidIp | src/system_validators.py:243-257 | True exactly when the text splits on "." into four parts, each an integer in 0..255. A part `int` rejects gives false instead of raising. |
| SystemValidators.IpExampleLan | tests/test_system_validators.py:97-101 | "192.168.1.1" is accepted. |
| SystemValidators.IpExampleTen | tests/test_system_validators.py:97-101 | "10.0.0.1" is accepted. |
| SystemValidators.IpExampleDocker | tests/test_system_validators.py:97-101 | "172.16.0.1" is accepted. |
| SystemValidators.IpExampleBadOctet | tests/test_system_validators.py:103-108 | "256.1.1.1" is rejected. |
| SystemValidators.IpExampleWords | tests/test_system_validators.py:103-108 | "not.an.ip" and "" are rejected. |
| SystemValidators.PollVerdict | src/system_validators.py:200-232 | A poll fails exactly when it succeeded and mentions an error keyword. It is ready exactly when it succeeded, mentions no error keyword and mentions a ready keyword. It waits exactly when the command raised, exited non-zero, or mentions neither kind. Keywords match case-insensitively. |
| SystemValidators.WaitForReadyFirst | src/system_validators.py:196-240 | The wait succeeds exactly when some poll is ready and every poll before it kept waiting. |
| SystemValidators.ErrorWins | src/system_validators.py:213-222 | A log that mentions an error fails the wait even if it also says it is ready. |
| SystemValidators.ErrorFirstFails | src/system_validators.py:213-222 | A successful poll whose log starts with "error", in any case, fails. |
| SystemValidators.TunnelUpReady | src/system_validators.py:224-229 | A successful poll whose log starts with "vpn is up" and mentions no error keyword is ready. |
| SystemValidators.PollExamples | tests/test_system_validators.py:110-126 | "ERROR: Connection failed" fails and "VPN is up" is ready. |
| SystemValidators.FailedPollsTimeOut | src/system_validators.py:204-240 | Polls that fail or raise never decide anything, so the wait times out with false. |
| Monolith.MonolithKey | setup.py:322-325 | `setup.py`'s key has 64 characters, all in [A-Za-z0-9]. |
| Monolith.KeyFor | setup.py:1396-1399 | The key is empty or a fresh 64-character key. An error names a selected id missing from the catalog. |
| Monolith.KeyGenerated | setup.py:1396-1399 | A key is made exactly when some selected service asks for one and every selected id before it is in the catalog. |
| Monolith.NoKeyNeeded | setup.py:1396-1399 | With every id known and none asking for a key, the key is empty. |
| Monolith.EnvLines | setup.py:1426-1438 | `.env` has nine lines without a key and ten with one. Only the tenth line is `SECRET_ENCRYPTION_KEY=` followed by the key. |
| Monolith.FilesSettings | setup.py:1409-1418 | The compose file gets exactly the decided key. |
| Monolith.EnvCarriesKey | setup.py:1396-1438 | With every id known, `.env` has the secret line exactly when some selected service asks for a key. That line holds the very key the compose file gets. |
| Monolith.YesNoEditions | setup.py:281-289 | `setup.py` says yes exactly when the package's prompt would, except to "true" and "1", which only the package accepts. It never asks again. |
| Monolith.MonolithCommand | setup.py:308-313 | "sudo" is prepended whenever it is asked for. The command itself is unchanged. |
| Monolith.SudoEditions | setup.py:308-313 | The two `run_command`s agree unless running as root, where only `setup.py` still adds "sudo". |
| Monolith.QbittorrentHost | setup.py:1382-1387 | "gluetun" exactly when the VPN is enabled and routes qBittorrent, else "qbittorrent". |
| Monolith.HostAgreesWithPackage | setup.py:1382-1387 | Whenever the VPN is on, `setup.py` and the package name the same host. |
| Monolith.Collect | setup.py:700-705 | A loop that may raise yields all parts in order exactly when every part builds. |
| Monolith.CollectFirstError | setup.py:700-705 | The error reported is that of the first id whose part fails. |
| Monolith.TableUrl | setup.py:670-673 | A truthy setup URL has every `{host_ip}` replaced by the host address. Otherwise the cell reads "(no web UI)". |
| Monolith.TableRow | setup.py:668-675 | A row builds exactly when the id is in the catalog with the port and name keys. The row is name, URL cell and port, and a null name or port prints as "None". |
| Monolith.UrlTable | setup.py:667-677 | There is one row per selected id, in order, and the fixed Watchtower row is last. It fails exactly when some row fails. |
| Monolith.ServiceDirs | setup.py:679-684 | Two tree lines per selected id, in order: the id's directory and its `config/`. |
| Monolith.NumberedSteps | setup.py:746-749 | Steps are numbered consecutively from the first number, each with its placeholders filled in. |
| Monolith.SectionLines | setup.py:718-753 | A section builds exactly when the service has the name and description keys, null or not. Its length counts the URL lines only when there is a URL. |
| Monolith.SectionShape | setup.py:718-753 | A section starts with the service's title ("None" for a null name) and ends with "", "---", "". Its steps, numbered from 1 in order, sit right before that ending. |
| Monolith.SectionFor | setup.py:702-704 | A selected id's section builds exactly when the id is in the catalog and its section builds. |
| Monolith.GuideText | setup.py:650-716 | The guide builds exactly when the table and every section build. It starts with the header rendered from the table and ends with the footer rendered from the directory tree. |
| Monolith.WalkthroughReorders | setup.py:1625-1645 | The walkthrough's priority list is the package's list with the *arr entries moved: prowlarr and jackett come before radarr, sonarr, lidarr and mylar3. |
| Monolith.WalkthroughPriorityDistinct | setup.py:1625-1645 | The walkthrough's priority list names each service once. |
| Monolith.InPriority | setup.py:1647 | The selected ids the priority list names, in list order, each once. |
| Monolith.WalkthroughOrder | setup.py:1647-1650 | The order holds each selected id exactly once. The ids the priority list names come first, in list order. The others follow in selection order. |
| Paths.JoinDot | tests/conftest.py:65 | Joining "." leaves a path as it was. |
| Paths.JoinName | src/compose_generator.py:206 | Joining a plain name appends exactly that one segment. |
| OrderedMap.GetPut | src/vpn_config.py:277-294 | After `d[k] = v`, looking up `k` gives `v` and every other key is untouched. |
| OrderedMap.KeysPut | src/vpn_config.py:277-294 | `d[k] = v` keeps the key order and appends `k` only when it is new. |
| Text.ReplaceIsSplitJoin | src/utils.py:267 | `str.replace` replaces every non-overlapping occurrence, left to right. |
| Text.JoinSplit | src/utils.py:267 | Splitting and joining with the same separator gives the text back. |
| Text.ParseNatToString | src/utils.py:283-286 | `int` reads back the decimal form of every natural number. |

## Left out

- Prompting, printing and the wizard flows are not modelled. This covers `src/user_interface.py`, `src/setup_core.py` and `setup.py`'s `MediaServerSetup`. Each answer is an input, and only the decision it feeds is modelled. The VPN step of both wizards is kept as `ComposeProperties.WizardVpn`.
- Running commands, probing the network, and reading the clock or time zone are left out. Their outputs (exit status, stdout, detected subnet, effective uid, timestamps) are parameters.
- Filesystem work is not modelled: directory creation, file writes, chown and chmod, and `validate_generated_files`. `Monolith.EnvLines` gives the lines of `.env`; the join with a trailing newline is not modelled.
- Template loading and `str.format` rendering are left out. The rendered header and footer are parameters (`Guide.SetupGuide`, `Monolith.GuideText`).
- YAML parsing is not modelled: the catalog is an already-parsed `Catalog.Services`, and a YAML document is `Catalog.YamlFile`. The manifest is not proved to be valid YAML; line-level structure is proved instead.
- Randomness is not modelled: `secrets.choice` is the `draw` parameter.
- The health checker's live checks, the exception path of `_analyze_container_logs`, and its stub helpers that return constants are left out.
- The readiness wait's clock and sleeping are not modelled. The polls made before the timeout are given as a sequence.
- `int()` is modelled for an optional sign followed by ASCII digits only. Surrounding whitespace, `_` separators and non-ASCII digits, all of which Python accepts, are not modelled.
- `lower`, `upper`, `strip` and `title` act on ASCII letters and ASCII whitespace only.
- Compose.PortRepr: an annotated extra port outside the Gluetun block is printed as an approximation of Python's `repr` of a dictionary, with single-quoted keys and values.
- Compose.ServiceBlock: an image or port given as null in the catalog is treated as missing, where the generator would write the text `None`. uid and gid are natural numbers.
- Compose.GluetunBlock: a null qBittorrent or Gluetun port falls back to 8080 or 8888 as an absent one does, where the generator would write `None`.
- A null value for a list field (volumes, environment, setup steps, notes, warnings, extra ports) is not modelled. Such a field is a list or absent.
- VpnConfig.CredentialDecision: when `getpass` fails, `setup.py` falls back to a stripped `input()`. That fallback is not modelled, so a sensitive field is always read as typed.
- Compose.Generate: there is no ensures clause on the builder itself. Its shape, success condition and entries are stated by `ComposeProperties.GenerateParts`, `GenerateSucceeds`, `ManifestEntries`, `GluetunFirstAndOnce` and `ManifestFrame`.
- Health.AnalyzeContainerLogs: the errors and warnings are characterised by membership and absence of duplicates (`ScanErrors`, `ScanWarnings`), not by the order in which they were first seen.
- `total_steps`, the unused argument of `_generate_service_setup_section`, is not modelled.
- `Text.Lower` and the other case functions do not model Unicode case mapping.
