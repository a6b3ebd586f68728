/**
 * The decisions of `GluetunConfigurator` (src/vpn_config.py, and its variant in
 * setup.py). The configurator is an immutable record; every prompt becomes a
 * stream of answers consumed in order, and each step returns how many answers it
 * read. A step returns `None` when the answers run out before it decides.
 */
module VpnConfig {
  import opened Wrappers
  import opened Text
  import opened OrderedMap
  import opened Utils
  import opened Constants

  /** `self.provider`: unset, the manual "custom" entry, or a key of the provider table. */
  datatype ProviderSel = NoProvider | Custom | Known(provider: Provider)

  /** The configurator's state after `configure()`. */
  datatype GluetunConfig = GluetunConfig(
    enabled: bool,
    provider: ProviderSel,
    vpnType: Protocol,
    credentials: seq<(string, string)>,
    serverCountries: string,
    routeQbittorrent: bool,
    dockerSubnet: string)

  /** A freshly constructed configurator. */
  const Fresh: GluetunConfig := GluetunConfig(false, NoProvider, OpenVpn, [], "", false, "")

  // ---------------------------------------------------------------------------
  // Environment variables

  /** `env[key] = value` for every credential with a non-empty value, in order. */
  function PutNonEmpty(env: seq<(string, string)>, credentials: seq<(string, string)>): seq<(string, string)>
    decreases |credentials|
  {
    if |credentials| == 0 then env
    else
      var (k, v) := credentials[0];
      PutNonEmpty(if v != "" then Put(env, k, v) else env, credentials[1..])
  }

  /** The variables Gluetun reads, and the keys the environment builder writes itself. */
  const FixedKeys: set<string> := {"VPN_SERVICE_PROVIDER", "VPN_TYPE", "SERVER_COUNTRIES", "FIREWALL_OUTBOUND_SUBNETS"}

  /** The two variables every enabled configuration writes first. */
  function BaseVars(c: GluetunConfig): seq<(string, string)>
    requires c.provider.Known?
  {
    [("VPN_SERVICE_PROVIDER", c.provider.provider.providerName), ("VPN_TYPE", c.vpnType.Name())]
  }

  lemma GetBase(c: GluetunConfig, key: string)
    requires c.provider.Known?
    ensures Get(BaseVars(c), key) ==
      if key == "VPN_SERVICE_PROVIDER" then Some(c.provider.provider.providerName)
      else if key == "VPN_TYPE" then Some(c.vpnType.Name())
      else None
  {
    var base := BaseVars(c);
    assert base[1..] == [base[1]];
    assert base[1..][1..] == [];
    assert Get(base, key) == if key == base[0].0 then Some(base[0].1) else Get(base[1..], key);
    assert Get(base[1..], key) == if key == base[1].0 then Some(base[1].1) else Get(base[1..][1..], key);
  }

  /**
   * `get_environment_vars`. The `setup.py` edition has no Docker-network step and
   * never writes `FIREWALL_OUTBOUND_SUBNETS`.
   */
  function EnvironmentVars(c: GluetunConfig, edition: Edition): seq<(string, string)> {
    if !c.enabled || !c.provider.Known? then []
    else
      var base := BaseVars(c);
      var withCredentials := PutNonEmpty(base, c.credentials);
      var withCountries :=
        if c.serverCountries != "" then Put(withCredentials, "SERVER_COUNTRIES", c.serverCountries)
        else withCredentials;
      if edition == Package && c.dockerSubnet != "" then Put(withCountries, "FIREWALL_OUTBOUND_SUBNETS", c.dockerSubnet)
      else withCountries
  }

  /** Assigning keys never removes one. */
  lemma {:induction false} PutNonEmptyKeeps(env: seq<(string, string)>, credentials: seq<(string, string)>, k: string)
    requires Get(env, k).Some?
    ensures Get(PutNonEmpty(env, credentials), k).Some?
    decreases |credentials|
  {
    if |credentials| > 0 {
      var (k2, v) := credentials[0];
      var next := if v != "" then Put(env, k2, v) else env;
      if v != "" {
        GetPut(env, k2, v, k);
      }
      PutNonEmptyKeeps(next, credentials[1..], k);
    }
  }

  /** The value of a key no credential writes is the one it had before. */
  lemma {:induction false} PutNonEmptyOther(env: seq<(string, string)>, credentials: seq<(string, string)>, k: string)
    requires forall i | 0 <= i < |credentials| :: credentials[i].0 != k
    ensures Get(PutNonEmpty(env, credentials), k) == Get(env, k)
    decreases |credentials|
  {
    if |credentials| > 0 {
      var (k2, v) := credentials[0];
      var next := if v != "" then Put(env, k2, v) else env;
      if v != "" {
        GetPut(env, k2, v, k);
      }
      PutNonEmptyOther(next, credentials[1..], k);
    }
  }

  /**
   * A credential key ends up with its value exactly when that value is non-empty
   * (for a dictionary of credentials, where each key appears once).
   */
  lemma {:induction false} PutNonEmptyCredential(env: seq<(string, string)>, credentials: seq<(string, string)>, k: string)
    requires UniqueKeys(credentials)
    requires Get(env, k).None?
    ensures Get(PutNonEmpty(env, credentials), k) ==
      (match Get(credentials, k) case Some(v) => if v != "" then Some(v) else None case None => None)
    decreases |credentials|
  {
    if |credentials| > 0 {
      var (k2, v) := credentials[0];
      var next := if v != "" then Put(env, k2, v) else env;
      if v != "" {
        GetPut(env, k2, v, k);
      }
      assert UniqueKeys(credentials[1..]) by {
        assert Keys(credentials[1..]) == Keys(credentials)[1..];
      }
      if k2 == k {
        assert forall i | 0 <= i < |credentials[1..]| :: credentials[1..][i].0 != k by {
          forall i | 0 <= i < |credentials[1..]| ensures credentials[1..][i].0 != k {
            assert Keys(credentials)[0] == k && Keys(credentials)[i + 1] == credentials[1..][i].0;
          }
        }
        PutNonEmptyOther(next, credentials[1..], k);
      } else {
        PutNonEmptyCredential(next, credentials[1..], k);
      }
    }
  }

  /** No variables unless the VPN is enabled with a provider from the table. */
  lemma EnvironmentEmpty(c: GluetunConfig, edition: Edition)
    ensures EnvironmentVars(c, edition) == [] <==> !c.enabled || !c.provider.Known?
  {
    if c.enabled && c.provider.Known? {
      var base := BaseVars(c);
      assert Get(base, "VPN_TYPE").Some?;
      GetBase(c, "VPN_TYPE");
      PutNonEmptyKeeps(base, c.credentials, "VPN_TYPE");
      var env := EnvironmentVars(c, edition);
      var withCredentials := PutNonEmpty(base, c.credentials);
      if c.serverCountries != "" {
        GetPut(withCredentials, "SERVER_COUNTRIES", c.serverCountries, "VPN_TYPE");
      }
      var withCountries :=
        if c.serverCountries != "" then Put(withCredentials, "SERVER_COUNTRIES", c.serverCountries)
        else withCredentials;
      if edition == Package && c.dockerSubnet != "" {
        GetPut(withCountries, "FIREWALL_OUTBOUND_SUBNETS", c.dockerSubnet, "VPN_TYPE");
      }
      assert Get(env, "VPN_TYPE").Some?;
    }
  }

  /** No credential writes one of the builder's own keys. */
  predicate CredentialsApart(c: GluetunConfig) {
    forall i | 0 <= i < |c.credentials| :: c.credentials[i].0 !in FixedKeys
  }

  /**
   * With a provider from the table, the result names the provider and the protocol,
   * each credential appears exactly when its value is non-empty, the countries
   * appear exactly when given, and the firewall subnet exactly when given (in the
   * package edition only).
   */
  lemma EnvironmentContents(c: GluetunConfig, edition: Edition, k: string)
    requires c.enabled && c.provider.Known?
    requires CredentialsApart(c) && UniqueKeys(c.credentials)
    ensures var env := EnvironmentVars(c, edition);
      && Get(env, "VPN_SERVICE_PROVIDER") == Some(c.provider.provider.providerName)
      && Get(env, "VPN_TYPE") == Some(c.vpnType.Name())
      && Get(env, "SERVER_COUNTRIES") == (if c.serverCountries != "" then Some(c.serverCountries) else None)
      && Get(env, "FIREWALL_OUTBOUND_SUBNETS") ==
           (if edition == Package && c.dockerSubnet != "" then Some(c.dockerSubnet) else None)
      && (k !in FixedKeys ==>
            Get(env, k) == (match Get(c.credentials, k) case Some(v) => if v != "" then Some(v) else None case None => None))
  {
    var base := BaseVars(c);
    var withCredentials := PutNonEmpty(base, c.credentials);
    var withCountries :=
      if c.serverCountries != "" then Put(withCredentials, "SERVER_COUNTRIES", c.serverCountries)
      else withCredentials;
    var env := EnvironmentVars(c, edition);
    forall key | key in FixedKeys ensures Get(withCredentials, key) == Get(base, key) {
      PutNonEmptyOther(base, c.credentials, key);
    }
    GetBase(c, "VPN_SERVICE_PROVIDER");
    GetBase(c, "VPN_TYPE");
    GetBase(c, "SERVER_COUNTRIES");
    GetBase(c, "FIREWALL_OUTBOUND_SUBNETS");
    if k !in FixedKeys {
      GetBase(c, k);
      PutNonEmptyCredential(base, c.credentials, k);
    }
    forall key ensures Get(withCountries, key) ==
      (if key == "SERVER_COUNTRIES" && c.serverCountries != "" then Some(c.serverCountries) else Get(withCredentials, key))
    {
      if c.serverCountries != "" {
        GetPut(withCredentials, "SERVER_COUNTRIES", c.serverCountries, key);
      }
    }
    forall key ensures Get(env, key) ==
      (if key == "FIREWALL_OUTBOUND_SUBNETS" && edition == Package && c.dockerSubnet != "" then Some(c.dockerSubnet)
       else Get(withCountries, key))
    {
      if edition == Package && c.dockerSubnet != "" {
        GetPut(withCountries, "FIREWALL_OUTBOUND_SUBNETS", c.dockerSubnet, key);
      }
    }
  }

  /** The `setup.py` builder is the package builder without the firewall subnet. */
  lemma MonolithEnvironment(c: GluetunConfig)
    ensures EnvironmentVars(c, Monolith) == EnvironmentVars(c.(dockerSubnet := ""), Package)
    ensures c.dockerSubnet != "" && c.enabled && c.provider.Known? ==>
      EnvironmentVars(c, Package) == Put(EnvironmentVars(c, Monolith), "FIREWALL_OUTBOUND_SUBNETS", c.dockerSubnet)
  {
  }

  // ---------------------------------------------------------------------------
  // Decisions of the interactive steps

  /**
   * An answer as the edition's `prompt` returns it, before an empty answer turns
   * into the default: the package takes it as typed, `setup.py` strips it.
   */
  function Typed(edition: Edition, raw: string): string {
    if edition == Monolith then Strip(raw) else raw
  }

  /**
   * A field read with `prompt_secret` (its lower-cased name mentions a password, a
   * key or a secret). Both editions take such an answer exactly as typed.
   */
  predicate Sensitive(field: string) {
    var name := Lower(field);
    Contains(name, "password") || Contains(name, "key") || Contains(name, "secret")
  }

  /**
   * One answer to the provider menu (default "1"): `k` in `1..n` picks the `k`-th
   * provider in table order, `n + 1` the manual entry, anything else asks again.
   */
  function ProviderDecision(edition: Edition, table: seq<Provider>, raw: string): Decision<ProviderSel> {
    var choice := ParseInt(PromptAnswer(Typed(edition, raw), "1"));
    if choice.None? then Reprompt
    else if 1 <= choice.value <= |table| then Chosen(Known(table[choice.value - 1]))
    else if choice.value == |table| + 1 then Chosen(Custom)
    else Reprompt
  }

  /** The provider menu in both directions, for a decimal answer `k`. */
  lemma ProviderMenu(edition: Edition, table: seq<Provider>, k: nat)
    ensures 1 <= k <= |table| ==> ProviderDecision(edition, table, NatToString(k)) == Chosen(Known(table[k - 1]))
    ensures k == |table| + 1 ==> ProviderDecision(edition, table, NatToString(k)) == Chosen(Custom)
    ensures ProviderDecision(edition, table, NatToString(k)).Reprompt? <==> k == 0 || k > |table| + 1
  {
    ParseNatToString(k);
    DigitsOfNatToString(k);
    StripDigits(NatToString(k));
  }

  /** An empty answer takes the first provider; a non-number asks again. */
  lemma ProviderMenuDefaults(edition: Edition, table: seq<Provider>)
    requires |table| >= 1
    ensures ProviderDecision(edition, table, "") == Chosen(Known(table[0]))
    ensures ProviderDecision(edition, table, "abc") == Reprompt
  {
    ParseNatToString(1);
    assert NatToString(1) == "1";
  }

  /** One answer to the protocol menu (default "2"). */
  function ProtocolDecision(edition: Edition, raw: string): Decision<Protocol> {
    var choice := PromptAnswer(Typed(edition, raw), "2");
    if choice == "1" then Chosen(OpenVpn)
    else if choice == "2" then Chosen(WireGuard)
    else Reprompt
  }

  /**
   * `_select_vpn_type`: OpenVPN without a table provider; the user's answer when the
   * provider supports both; otherwise the one protocol the provider supports.
   */
  function SelectProtocol(edition: Edition, sel: ProviderSel, answers: seq<string>): (r: Option<(Protocol, nat)>)
    ensures r.Some? ==> r.value.1 <= |answers|
    ensures r.Some? && sel.Known? && (sel.provider.supportsOpenvpn || sel.provider.supportsWireguard)
      ==> sel.provider.Supports(r.value.0)
  {
    if !sel.Known? then Some((OpenVpn, 0))
    else if sel.provider.supportsOpenvpn && sel.provider.supportsWireguard then Ask(answers, (raw: string) => ProtocolDecision(edition, raw))
    else if sel.provider.supportsWireguard then Some((WireGuard, 0))
    else Some((OpenVpn, 0))
  }

  /** The protocol menu in both directions. */
  lemma ProtocolChoice(edition: Edition, sel: ProviderSel, answers: seq<string>)
    ensures !sel.Known? ==> SelectProtocol(edition, sel, answers) == Some((OpenVpn, 0))
    ensures sel.Known? && sel.provider.supportsOpenvpn && sel.provider.supportsWireguard && |answers| > 0 ==>
      (SelectProtocol(edition, sel, answers) == Some((OpenVpn, 1)) <==> Typed(edition, answers[0]) == "1")
      && (SelectProtocol(edition, sel, answers) == Some((WireGuard, 1)) <==> Typed(edition, answers[0]) in {"", "2"})
    ensures sel.Known? && !sel.provider.supportsOpenvpn && sel.provider.supportsWireguard ==>
      SelectProtocol(edition, sel, answers) == Some((WireGuard, 0))
    ensures sel.Known? && !sel.provider.supportsWireguard ==> SelectProtocol(edition, sel, answers) == Some((OpenVpn, 0))
  {
  }

  /**
   * One answer for a credential field: a required field must not be left empty.
   * `setup.py` strips every answer but a secret one.
   */
  function CredentialDecision(edition: Edition, field: string, raw: string): Decision<string> {
    var value := if Sensitive(field) then raw else Typed(edition, raw);
    if value == "" && field !in OptionalCredentialFields then Reprompt else Chosen(value)
  }

  /**
   * `setup.py` decides each menu and each plain field on the stripped answer, as
   * the package decides on that answer typed without surrounding space; a secret
   * field is taken as typed by both editions.
   */
  lemma MonolithStripsAnswers(table: seq<Provider>, field: string, raw: string)
    ensures ProviderDecision(Monolith, table, raw) == ProviderDecision(Package, table, Strip(raw))
    ensures ProtocolDecision(Monolith, raw) == ProtocolDecision(Package, Strip(raw))
    ensures !Sensitive(field) ==> CredentialDecision(Monolith, field, raw) == CredentialDecision(Package, field, Strip(raw))
    ensures Sensitive(field) ==> CredentialDecision(Monolith, field, raw) == CredentialDecision(Package, field, raw)
  {
  }

  /** A field whose lower-cased name lacks 'w', 'k' and 'c' is not read as a secret. */
  lemma PlainField(field: string)
    requires var name := Lower(field); 'w' !in name && 'k' !in name && 'c' !in name
    ensures !Sensitive(field)
  {
    var name := Lower(field);
    MissingCharNotContained(name, "password", 'w');
    MissingCharNotContained(name, "key", 'k');
    MissingCharNotContained(name, "secret", 'c');
  }

  /** A field whose lower-cased name has "password" at position `i` is read as a secret. */
  lemma PasswordField(field: string, i: nat)
    requires i <= |field| && StartsWith(Lower(field)[i..], "password")
    ensures Sensitive(field)
  {
    ContainsAt(Lower(field), "password", i);
  }

  /** The user name field is plain text. */
  lemma UserFieldPlain()
    ensures !Sensitive("OPENVPN_USER")
  {
    assert Lower("OPENVPN_USER") == "openvpn_user";
    PlainField("OPENVPN_USER");
  }

  /** The password field is read as a secret. */
  lemma PasswordFieldSecret()
    ensures Sensitive("OPENVPN_PASSWORD")
  {
    assert Lower("OPENVPN_PASSWORD")[8..] == "password";
    PasswordField("OPENVPN_PASSWORD", 8);
  }

  /** The protocol answer " 1 ": `setup.py` reads OpenVPN, the package asks again. */
  lemma SpacedProtocolExample()
    ensures ProtocolDecision(Monolith, " 1 ") == Chosen(OpenVpn)
    ensures ProtocolDecision(Package, " 1 ") == Reprompt
  {
    assert Strip(" 1 ") == "1";
  }

  /** A blank user name: `setup.py` asks again, the package accepts the spaces. */
  lemma BlankUserExample()
    ensures CredentialDecision(Monolith, "OPENVPN_USER", "  ") == Reprompt
    ensures CredentialDecision(Package, "OPENVPN_USER", "  ") == Chosen("  ")
  {
    BlankUserMonolith();
    BlankUserPackage();
  }

  lemma BlankUserMonolith()
    ensures CredentialDecision(Monolith, "OPENVPN_USER", "  ") == Reprompt
  {
    UserFieldPlain();
    assert Typed(Monolith, "  ") == "" by {
      assert StripLeft("  ") == StripLeft(" ") == "";
    }
    PlainFieldRead(Monolith, "OPENVPN_USER", "  ");
  }

  lemma BlankUserPackage()
    ensures CredentialDecision(Package, "OPENVPN_USER", "  ") == Chosen("  ")
  {
    UserFieldPlain();
  }

  /** `setup.py` stores a user name stripped, but a password with its spaces. */
  lemma SpacedCredentialExamples()
    ensures CredentialDecision(Monolith, "OPENVPN_USER", " alice ") == Chosen("alice")
    ensures CredentialDecision(Monolith, "OPENVPN_PASSWORD", " pw ") == Chosen(" pw ")
  {
    SpacedUserMonolith();
    PasswordFieldSecret();
  }

  lemma SpacedUserMonolith()
    ensures CredentialDecision(Monolith, "OPENVPN_USER", " alice ") == Chosen("alice")
  {
    UserFieldPlain();
    assert Strip(" alice ") == "alice";
    PlainFieldRead(Monolith, "OPENVPN_USER", " alice ");
  }

  /** A plain field's answer is decided as the edition's `prompt` returns it. */
  lemma PlainFieldRead(edition: Edition, field: string, raw: string)
    requires !Sensitive(field)
    ensures var value := Typed(edition, raw);
      CredentialDecision(edition, field, raw) ==
        if value == "" && field !in OptionalCredentialFields then Reprompt else Chosen(value)
  {
  }

  /** Every field has an entry, and only the optional fields may be empty. */
  predicate CredentialsComplete(credentials: seq<(string, string)>, fields: seq<string>) {
    forall i | 0 <= i < |fields| ::
      Get(credentials, fields[i]).Some?
      && (Get(credentials, fields[i]).value == "" ==> fields[i] in OptionalCredentialFields)
  }

  /** The loop over the fields of `_collect_credentials`, each asked until it is acceptable. */
  function CollectFields(edition: Edition, fields: seq<string>, answers: seq<string>, acc: seq<(string, string)>): (r: Option<(seq<(string, string)>, nat)>)
    ensures r.Some? ==> r.value.1 <= |answers|
    decreases |fields|
  {
    if |fields| == 0 then Some((acc, 0))
    else
      match Ask(answers, (raw: string) => CredentialDecision(edition, fields[0], raw))
      case None => None
      case Some((value, used)) =>
        match CollectFields(edition, fields[1..], answers[used..], Put(acc, fields[0], value))
        case None => None
        case Some((credentials, more)) => Some((credentials, used + more))
  }

  /** Entries already present stay present, with a value no worse than before. */
  lemma {:induction false} CollectKeeps(edition: Edition, fields: seq<string>, answers: seq<string>, acc: seq<(string, string)>, f: string)
    requires Get(acc, f).Some? && (Get(acc, f).value == "" ==> f in OptionalCredentialFields)
    requires CollectFields(edition, fields, answers, acc).Some?
    ensures var credentials := CollectFields(edition, fields, answers, acc).value.0;
      Get(credentials, f).Some? && (Get(credentials, f).value == "" ==> f in OptionalCredentialFields)
    decreases |fields|
  {
    if |fields| > 0 {
      var decide := (raw: string) => CredentialDecision(edition, fields[0], raw);
      var (value, used) := Ask(answers, decide).value;
      assert decide(answers[used - 1]) == Chosen(value);
      GetPut(acc, fields[0], value, f);
      CollectKeeps(edition, fields[1..], answers[used..], Put(acc, fields[0], value), f);
    }
  }

  /** After collection every field has a value, and only an optional one may be empty. */
  lemma {:induction false} CollectComplete(edition: Edition, fields: seq<string>, answers: seq<string>, acc: seq<(string, string)>)
    requires CollectFields(edition, fields, answers, acc).Some?
    ensures CredentialsComplete(CollectFields(edition, fields, answers, acc).value.0, fields)
    decreases |fields|
  {
    if |fields| > 0 {
      var decide := (raw: string) => CredentialDecision(edition, fields[0], raw);
      var (value, used) := Ask(answers, decide).value;
      assert decide(answers[used - 1]) == Chosen(value);
      var next := Put(acc, fields[0], value);
      GetPut(acc, fields[0], value, fields[0]);
      CollectComplete(edition, fields[1..], answers[used..], next);
      var credentials := CollectFields(edition, fields, answers, acc).value.0;
      assert credentials == CollectFields(edition, fields[1..], answers[used..], next).value.0;
      CollectKeeps(edition, fields[1..], answers[used..], next, fields[0]);
      forall i | 0 <= i < |fields|
        ensures Get(credentials, fields[i]).Some?
        ensures Get(credentials, fields[i]).value == "" ==> fields[i] in OptionalCredentialFields
      {
        if i > 0 {
          assert fields[i] == fields[1..][i - 1];
        }
      }
    }
  }

  /** `_collect_credentials`: nothing is asked for without a table provider. */
  function CollectCredentials(edition: Edition, sel: ProviderSel, protocol: Protocol, answers: seq<string>, credentials: seq<(string, string)>): (r: Option<(seq<(string, string)>, nat)>)
    ensures r.Some? ==> r.value.1 <= |answers|
    ensures !sel.Known? ==> r == Some((credentials, 0))
  {
    if !sel.Known? then Some((credentials, 0))
    else CollectFields(edition, sel.provider.FieldsFor(protocol), answers, credentials)
  }

  /**
   * `_configure_docker_network`: the stripped answer if it is a valid subnet, the
   * detected subnet if the answer is empty or invalid.
   */
  function SubnetDecision(raw: string, detected: string): (subnet: string)
    ensures subnet == Strip(raw) || subnet == detected
    ensures subnet == Strip(raw) && Strip(raw) != detected ==> ValidSubnetFormat(subnet)
  {
    var answer := Strip(raw);
    if answer == "" then detected
    else if ValidSubnetFormat(answer) then answer
    else detected
  }

  /** A valid detected subnet makes every outcome valid; a valid answer is always kept. */
  lemma SubnetAlwaysValid(raw: string, detected: string)
    requires ValidSubnetFormat(detected)
    ensures ValidSubnetFormat(SubnetDecision(raw, detected))
    ensures ValidSubnetFormat(Strip(raw)) ==> SubnetDecision(raw, detected) == Strip(raw)
  {
  }

  /** `_configure_server_location`: the stripped answer, empty meaning the provider's default. */
  function CountriesDecision(raw: string): string {
    Strip(raw)
  }

  /** What the provider-specific steps settle: protocol, credentials and countries. */
  datatype ProviderAnswers = ProviderAnswers(protocol: Protocol, credentials: seq<(string, string)>, countries: string)

  /**
   * The three steps `configure()` runs unless the manual entry was chosen: protocol,
   * credentials, server location. Returns the answers and how many were read.
   */
  function ProviderSteps(edition: Edition, sel: ProviderSel, answers: seq<string>): (r: Option<(ProviderAnswers, nat)>)
    ensures r.Some? ==> r.value.1 <= |answers|
    ensures sel.Custom? ==> r == Some((ProviderAnswers(OpenVpn, [], ""), 0))
  {
    if sel.Custom? then Some((ProviderAnswers(OpenVpn, [], ""), 0))
    else
      match SelectProtocol(edition, sel, answers)
      case None => None
      case Some((protocol, n1)) =>
        var rest1 := answers[n1..];
        match CollectCredentials(edition, sel, protocol, rest1, [])
        case None => None
        case Some((credentials, n2)) =>
          var rest2 := rest1[n2..];
          if |rest2| == 0 then None
          else Some((ProviderAnswers(protocol, credentials, CountriesDecision(rest2[0])), n1 + n2 + 1))
  }

  /**
   * For a well-formed table provider the protocol is one it supports and every field
   * of that protocol has a value, empty only where the field is optional.
   */
  lemma ProviderStepsOutcome(edition: Edition, sel: ProviderSel, answers: seq<string>)
    requires sel.Known? ==> WellFormedProvider(sel.provider)
    requires ProviderSteps(edition, sel, answers).Some?
    ensures var a := ProviderSteps(edition, sel, answers).value.0;
      sel.Known? ==> sel.provider.Supports(a.protocol) && CredentialsComplete(a.credentials, sel.provider.FieldsFor(a.protocol))
  {
    if sel.Known? {
      var (protocol, n1) := SelectProtocol(edition, sel, answers).value;
      CollectComplete(edition, sel.provider.FieldsFor(protocol), answers[n1..], []);
    }
  }

  /** `_configure_docker_network`, which only the package edition runs. */
  function NetworkStep(edition: Edition, detected: string, answers: seq<string>): (r: Option<(string, nat)>)
    ensures r.Some? ==> r.value.1 <= |answers|
    ensures edition == Monolith ==> r == Some(("", 0))
    ensures edition == Package && r.Some? ==> r.value.0 == detected || ValidSubnetFormat(r.value.0)
  {
    if edition == Monolith then Some(("", 0))
    else if |answers| == 0 then None
    else Some((SubnetDecision(answers[0], detected), 1))
  }

  /** A finished `configure()`: the configuration and the number of answers read. */
  datatype Outcome = Outcome(config: GluetunConfig, used: nat)

  /**
   * `configure()` over a stream of answers. `yesNo` is the edition's yes/no rule and
   * `detected` the subnet `get_docker_network_subnet` would report. Returns `None`
   * when the answers run out.
   */
  function Configure(edition: Edition, table: seq<Provider>, yesNo: (string, bool) -> Decision<bool>, detected: string, answers: seq<string>): (r: Option<Outcome>)
    ensures r.Some? ==> r.value.used <= |answers|
  {
    match Ask(answers, (raw: string) => yesNo(raw, false))
    case None => None
    case Some((wanted, n0)) =>
      if !wanted then Some(Outcome(Fresh, n0))
      else
        var rest0 := answers[n0..];
        match Ask(rest0, (raw: string) => ProviderDecision(edition, table, raw))
        case None => None
        case Some((sel, n1)) =>
          var rest1 := rest0[n1..];
          match ProviderSteps(edition, sel, rest1)
          case None => None
          case Some((a, n2)) =>
            var rest2 := rest1[n2..];
            match NetworkStep(edition, detected, rest2)
            case None => None
            case Some((subnet, n3)) =>
              var rest3 := rest2[n3..];
              match Ask(rest3, (raw: string) => yesNo(raw, true))
              case None => None
              case Some((route, n4)) =>
                Some(Outcome(GluetunConfig(true, sel, a.protocol, a.credentials, a.countries, route, subnet),
                  n0 + n1 + n2 + n3 + n4))
  }

  /** A menu choice never names a provider outside the table. */
  lemma ProviderChoiceInTable(edition: Edition, table: seq<Provider>, raw: string)
    ensures ProviderDecision(edition, table, raw).Chosen? ==> !ProviderDecision(edition, table, raw).value.NoProvider?
    ensures ProviderDecision(edition, table, raw).Chosen? && ProviderDecision(edition, table, raw).value.Known? ==>
      ProviderDecision(edition, table, raw).value.provider in table
  {
  }

  /**
   * What a finished configuration guarantees: a declined VPN leaves the fresh
   * state; an enabled one has a provider; the manual entry skips protocol,
   * credentials and location; a table provider comes from the table, uses a
   * protocol it supports and has every field of that protocol filled in; the
   * subnet is one the syntax check accepted or the detected one (none at all in
   * `setup.py`).
   */
  lemma ConfigureOutcome(edition: Edition, table: seq<Provider>, yesNo: (string, bool) -> Decision<bool>, detected: string, answers: seq<string>)
    requires forall i | 0 <= i < |table| :: WellFormedProvider(table[i])
    requires Configure(edition, table, yesNo, detected, answers).Some?
    ensures var c := Configure(edition, table, yesNo, detected, answers).value.config;
      && (!c.enabled ==> c == Fresh)
      && (c.enabled ==> !c.provider.NoProvider?)
      && (c.provider.Custom? ==> c.vpnType == OpenVpn && c.credentials == [] && c.serverCountries == "")
      && (c.provider.Known? ==>
            && c.provider.provider in table
            && c.provider.provider.Supports(c.vpnType)
            && CredentialsComplete(c.credentials, c.provider.provider.FieldsFor(c.vpnType)))
      && (edition == Monolith ==> c.dockerSubnet == "")
      && (edition == Package && c.enabled ==> c.dockerSubnet == detected || ValidSubnetFormat(c.dockerSubnet))
  {
    var (wanted, n0) := Ask(answers, (raw: string) => yesNo(raw, false)).value;
    if wanted {
      var rest0 := answers[n0..];
      var (sel, n1) := Ask(rest0, (raw: string) => ProviderDecision(edition, table, raw)).value;
      ProviderChoiceInTable(edition, table, rest0[n1 - 1]);
      if sel.Known? {
        assert WellFormedProvider(sel.provider);
      }
      ProviderStepsOutcome(edition, sel, rest0[n1..]);
    }
  }
}
